/** Sums and products with `%left PLUS.` below `%left STAR.`: how the generator groups them. */
module PrecedenceRun {
  import opened Wrappers
  import opened Grammars
  import opened FirstSets
  import opened Closures
  import opened Automata
  import opened StackInvariant
  import opened Driver
  import opened Actions
  import opened Precedence
  import opened Compress
  import opened Lookaheads
  import opened ActionLists
  import opened Packing
  import opened Completeness
  import opened Generator
  import CompressionRuns
  import TableGen
  import Machine

  const PLUS: nat := 1
  const STAR: nat := 2
  const ID: nat := 3
  const E: nat := 4
  const S: nat := 5

  /** `E ::= E PLUS E`, `E ::= E STAR E`, `E ::= ID` and `S ::= E`. */
  function Sums(): Grammar {
    Grammar(4, 6, [
      Rule(E, [Nonterminal(E), Terminal(PLUS), Nonterminal(E)]), Rule(E, [Nonterminal(E), Terminal(STAR), Nonterminal(E)]),
      Rule(E, [Terminal(ID)]), Rule(S, [Nonterminal(E)])], S)
  }

  const LEVELS: map<nat, nat> := map[PLUS := 1, STAR := 2]

  function Declared(precsym: map<nat, nat>): Precedences { Precedences(LEVELS, map[PLUS := LEFT, STAR := LEFT], precsym) }

  lemma SumsAreValid()
    ensures ValidGrammar(Sums()) && NoStartOnRhs(Sums()) && TokensDistinct(Sums())
  {
  }

  /** The two operator rules take the precedence of their operator, the others have none. */
  predicate OperatorRules(precsym: map<nat, nat>) { precsym == map[0 := PLUS, 1 := STAR] }

  lemma LendersOf(precsym: map<nat, nat>)
    requires RuleSymbols(Sums(), LEVELS, map[], precsym, 4) && forall r :: r in precsym ==> r < 4
    ensures OperatorRules(precsym)
  {
    var g := Sums();
    forall op: nat ensures Lenders([Nonterminal(E), Terminal(op), Nonterminal(E)]) == [E, op, E] {
      assert [Nonterminal(E), Terminal(op), Nonterminal(E)][1..] == [Terminal(op), Nonterminal(E)];
      assert [Terminal(op), Nonterminal(E)][1..] == [Nonterminal(E)];
    }
    assert [E, PLUS, E][1] in LEVELS && [E, STAR, E][1] in LEVELS;
    assert Lenders(g.rules[2].rhs) == [ID] && Lenders(g.rules[3].rhs) == [E];
    hide Lenders;
    forall r: nat | r < 4 ensures r in precsym <==> r < 2 {
      assert r in precsym ==> Leftmost(LEVELS, Lenders(g.rules[r].rhs), precsym[r]);
      assert r !in precsym ==> NonePrecedes(LEVELS, Lenders(g.rules[r].rhs));
    }
    assert Leftmost(LEVELS, [E, PLUS, E], precsym[0]) && Leftmost(LEVELS, [E, STAR, E], precsym[1]);
  }

  // ---- Which configurations share a state ----

  lemma {:induction false} LastShift(states: seq<State>, n: nat, a: nat, b: nat) returns (c: nat)
    requires LeadsIn(states, n, a, b) && a != b
    ensures ShiftsInto(states, c, b)
    decreases n
  {
    var d: nat :| ShiftsInto(states, a, d) && LeadsIn(states, n - 1, d, b);
    if d == b { c := a; } else { c := LastShift(states, n - 1, d, b); }
  }

  /** The symbol number of a right-hand side symbol; there are no token classes. */
  function NumberOf(x: Symbol): nat { match x case Terminal(t) => t case Nonterminal(a) => a case MultiTerminal(_) => 0 }

  lemma SymbolBefore(m: Analysed, k: nat, y: Item, sym: Symbol)
    requires Wf(m) && m.g == Sums() && Holds(m, k, y) && Before(m.g, y, sym)
    ensures y.rule < 4 && Covers(m.g, sym, NumberOf(sym)) && !sym.MultiTerminal?
  {
    hide Wf;
  }

  lemma IntoState(m: Analysed, k: nat) returns (a: nat, major: nat)
    requires Wf(m) && m.g == Sums() && 0 < k < |m.states|
    ensures Edge(m.g, m.states, a, major, k)
  {
    assert Leads(m.states, 0, k);
    var n: nat :| LeadsIn(m.states, n, 0, k);
    a := LastShift(m.states, n, 0, k);
    var sh :| sh in m.states[a].shifts && sh.target == k;
    ShiftFits(m.g, m.an, m.states, a, sh);
    var y :| y in m.states[a].closed.items && Before(m.g, y, sh.sym);
    SymbolBefore(m, a, y, sh.sym);
    major := NumberOf(sh.sym);
  }

  /** The item before the last symbol was passed. */
  lemma Behind(m: Analysed, a: nat, major: nat, k: nat, x: Item)
    requires Wf(m) && m.g == Sums() && Edge(m.g, m.states, a, major, k) && Holds(m, k, x) && x.dot > 0
    ensures x.rule < 4 && x.dot <= |Sums().rules[x.rule].rhs| && Holds(m, a, Item(x.rule, x.dot - 1))
    ensures NumberOf(Sums().rules[x.rule].rhs[x.dot - 1]) == major
  {
    StepBack(m.g, m.an, m.states, a, major, k, x);
    hide Wf;
  }

  /** A configuration with the dot at the left was brought in by one of the basis with a nonterminal behind its dot. */
  lemma {:induction false} BroughtInBy(g: Grammar, basis: seq<Item>, n: nat, x: Item)
    requires InClosureBy(g, basis, n, x) && x !in basis
    ensures exists y, b: nat :: y in basis && Before(g, y, Nonterminal(b))
  {
    if n > 0 && !InClosureBy(g, basis, n - 1, x) {
      var y :| InClosureBy(g, basis, n - 1, y) && Spawns(g, y, x);
      if y in basis {
        assert Before(g, y, Nonterminal(g.rules[x.rule].lhs));
      } else {
        BroughtInBy(g, basis, n - 1, y);
      }
    } else if n > 0 {
      BroughtInBy(g, basis, n - 1, x);
    }
  }

  // ---- Every conflict is decided ----

  lemma ReduceFacts(m: Analysed, k: nat, t: nat, r: nat)
    requires Wf(m) && m.g == Sums() && k < |m.states| && Entitled(m, k, t, REDUCE, r)
    ensures 0 < k && r < 4 && Holds(m, k, Item(r, |Sums().rules[r].rhs|)) && t < 4 && (r == 3 ==> t == 0)
  {
    TableGen.ReduceEnds(m, k, t, r);
    DottedItem(m.g, m.an, m.states, k, Item(r, |m.g.rules[r].rhs|));
  }

  /** `S ::= E` and an operator rule are never complete together. */
  lemma NotTogether(m: Analysed, k: nat, r: nat)
    requires Wf(m) && m.g == Sums() && 0 < k < |m.states| && r < 2
    ensures !(Holds(m, k, Item(3, 1)) && Holds(m, k, Item(r, 3)))
  {
    if Holds(m, k, Item(3, 1)) && Holds(m, k, Item(r, 3)) {
      var a, major := IntoState(m, k);
      Behind(m, a, major, k, Item(3, 1));
      Behind(m, a, major, k, Item(r, 3));
      DottedItem(m.g, m.an, m.states, a, Item(r, 2));
      UndottedItem(m.g, m.an, m.states, a, Item(3, 0));
      hide Wf;
      assert false;
    }
  }

  lemma TwoReduces(m: Analysed, k: nat, t: nat, r: nat, r': nat)
    requires Wf(m) && m.g == Sums() && k < |m.states| && r != r' && Entitled(m, k, t, REDUCE, r) && Entitled(m, k, t, REDUCE, r')
    ensures r < 2 && r' < 2
  {
    ReduceFacts(m, k, t, r);
    ReduceFacts(m, k, t, r');
    var a, major := IntoState(m, k);
    Behind(m, a, major, k, Item(r, |Sums().rules[r].rhs|));
    Behind(m, a, major, k, Item(r', |Sums().rules[r'].rhs|));
    if r < 2 { NotTogether(m, k, r); }
    if r' < 2 { NotTogether(m, k, r'); }
    hide Wf, Holds, Entitled, Edge;
  }

  /** The configuration behind an edge over a terminal. */
  lemma ShiftedItem(m: Analysed, k: nat, t: nat, to: nat) returns (y: Item)
    requires Wf(m) && m.g == Sums() && Edge(m.g, m.states, k, t, to) && t < 4
    ensures Holds(m, k, y) && y in {Item(0, 1), Item(1, 1), Item(2, 0)} && NumberOf(Sums().rules[y.rule].rhs[y.dot]) == t
  {
    var sh :| sh in m.states[k].shifts && Covers(m.g, sh.sym, t) && sh.target == to;
    ShiftFits(m.g, m.an, m.states, k, sh);
    y :| y in m.states[k].closed.items && Before(m.g, y, sh.sym);
    SymbolBefore(m, k, y, sh.sym);
    hide Wf;
  }

  /** A state entered over `E` or `ID` has no nonterminal to come. */
  lemma NothingBroughtIn(m: Analysed, a: nat, major: nat, k: nat)
    requires Wf(m) && m.g == Sums() && 0 < k < |m.states| && Edge(m.g, m.states, a, major, k) && (major == E || major == ID)
    ensures !Holds(m, k, Item(2, 0))
  {
    if Holds(m, k, Item(2, 0)) {
      ItemFacts(m, k, Item(2, 0));
      assert StateOk(m.g, m.an, m.states[k], k);
      assert InClosure(m.g, m.states[k].basis, Item(2, 0));
      var n: nat :| InClosureBy(m.g, m.states[k].basis, n, Item(2, 0));
      BroughtInBy(m.g, m.states[k].basis, n, Item(2, 0));
      var y, b: nat :| y in m.states[k].basis && Before(m.g, y, Nonterminal(b));
      BasisInState(m, k, y);
      Behind(m, a, major, k, y);
      hide Wf;
      assert false;
    }
  }

  lemma ShiftAndReduce(m: Analysed, k: nat, t: nat, s: nat, r: nat)
    requires Wf(m) && m.g == Sums() && k < |m.states| && Entitled(m, k, t, SHIFT, s) && Entitled(m, k, t, REDUCE, r)
    ensures r < 2 && (t == PLUS || t == STAR)
  {
    ReduceFacts(m, k, t, r);
    var y := ShiftedItem(m, k, t, s);
    var a, major := IntoState(m, k);
    Behind(m, a, major, k, Item(r, |Sums().rules[r].rhs|));
    NothingBroughtIn(m, a, major, k);
    Behind2(m, a, major, k, y);
    hide Wf, Holds, Entitled, Edge;
  }

  lemma Behind2(m: Analysed, a: nat, major: nat, k: nat, x: Item)
    requires Wf(m) && m.g == Sums() && Edge(m.g, m.states, a, major, k) && Holds(m, k, x)
    ensures x.dot > 0 ==> x.rule < 4 && x.dot <= |Sums().rules[x.rule].rhs| && NumberOf(Sums().rules[x.rule].rhs[x.dot - 1]) == major
  {
    if x.dot > 0 { Behind(m, a, major, k, x); }
  }

  lemma SumsDecided(m: Analysed, p: Precedences, k: nat)
    requires Wf(m) && m.g == Sums() && p == Declared(map[0 := PLUS, 1 := STAR]) && k < |m.states|
    ensures DecidedAt(m, p, k)
  {
    forall t: nat, kind: Kind, arg: nat, kind': Kind, arg': nat |
      Entitled(m, k, t, kind, arg) && Entitled(m, k, t, kind', arg') && (kind != kind' || arg != arg')
      ensures EitherWay(p, t, kind, arg, kind', arg')
    {
      PairDecided(m, p, k, t, kind, arg, kind', arg');
    }
  }

  lemma PairDecided(m: Analysed, p: Precedences, k: nat, t: nat, kind: Kind, arg: nat, kind': Kind, arg': nat)
    requires Wf(m) && m.g == Sums() && p == Declared(map[0 := PLUS, 1 := STAR]) && k < |m.states|
    requires Entitled(m, k, t, kind, arg) && Entitled(m, k, t, kind', arg') && (kind != kind' || arg != arg')
    ensures EitherWay(p, t, kind, arg, kind', arg')
  {
    NothingWithAccept(m, k, t, kind, arg, kind', arg');
    if kind == SHIFT && kind' == SHIFT {
      EdgesAgree(m, k, t, arg, arg');
    } else if kind == SHIFT {
      ShiftAndReduce(m, k, t, arg, arg');
    } else if kind' == SHIFT {
      ShiftAndReduce(m, k, t, arg', arg);
    } else {
      TwoReduces(m, k, t, arg, arg');
    }
    hide Wf, Entitled;
  }

  lemma NothingWithAccept(m: Analysed, k: nat, t: nat, kind: Kind, arg: nat, kind': Kind, arg': nat)
    requires Wf(m) && k < |m.states| && Entitled(m, k, t, kind, arg) && Entitled(m, k, t, kind', arg') && (kind != kind' || arg != arg')
    ensures kind in {SHIFT, REDUCE} && kind' in {SHIFT, REDUCE}
  {
    if kind == ACCEPT { NothingElseOnStart(m, k, Action(t, kind', arg', 0)); }
    if kind' == ACCEPT { NothingElseOnStart(m, k, Action(t, kind, arg, 0)); }
    hide Wf, Edge, ReducesAt;
  }

  /** Without token classes two edges on one symbol lead to the same state. */
  lemma EdgesAgree(m: Analysed, k: nat, t: nat, to: nat, to': nat)
    requires Wf(m) && m.g == Sums() && Edge(m.g, m.states, k, t, to) && Edge(m.g, m.states, k, t, to')
    ensures to == to'
  {
    var sh :| sh in m.states[k].shifts && Covers(m.g, sh.sym, t) && sh.target == to;
    var sh' :| sh' in m.states[k].shifts && Covers(m.g, sh'.sym, t) && sh'.target == to';
    SameSymbol(m, k, sh, sh', t);
    OneShift(m, k, sh, sh');
  }

  lemma SameSymbol(m: Analysed, k: nat, sh: Shift, sh': Shift, t: nat)
    requires Wf(m) && m.g == Sums() && k < |m.states| && sh in m.states[k].shifts && sh' in m.states[k].shifts
    requires Covers(m.g, sh.sym, t) && Covers(m.g, sh'.sym, t)
    ensures sh.sym == sh'.sym
  {
    ShiftFits(m.g, m.an, m.states, k, sh);
    ShiftFits(m.g, m.an, m.states, k, sh');
    var y :| y in m.states[k].closed.items && Before(m.g, y, sh.sym);
    var y' :| y' in m.states[k].closed.items && Before(m.g, y', sh'.sym);
    SymbolBefore(m, k, y, sh.sym);
    SymbolBefore(m, k, y', sh'.sym);
    hide Wf;
  }

  // ---- After an operation ----

  function Operator(r: nat): nat { if r == 0 then PLUS else STAR }

  /** In state 0 the operator rules are awaited, and either operator may follow. */
  lemma AtStart(m: Analysed, r: nat, t: nat)
    requires WellAnalysed(m) && m.g == Sums() && r < 2 && (t == PLUS || t == STAR)
    ensures Holds(m, 0, Item(r, 0)) && Follows(m, 0, Item(r, 0), t)
  {
    var y := Item(if t == PLUS then 0 else 1, 0);
    StartHolds(m, 0);
    StartHolds(m, 1);
    assert Wf(m);
    hide *;
    OperandSpawns(y.rule, r);
    OperatorBehind(m, y.rule, t);
    SpawnFollows(m, 0, y, Item(r, 0), t);
  }

  lemma OperandSpawns(q: nat, r: nat)
    requires q < 2 && r < 2
    ensures Spawns(Sums(), Item(q, 0), Item(r, 0))
  {
  }

  lemma OperatorBehind(m: Analysed, q: nat, t: nat)
    requires Wf(m) && m.g == Sums() && q < 2 && t == Operator(q)
    ensures CanFollow(m, 0, Item(q, 0), t)
  {
    assert Rest(m.g, Item(q, 0)) == [Terminal(t), Nonterminal(E)];
    hide Sums;
    assert t in FirstOfSeq(m.g, m.an, Rest(m.g, Item(q, 0)));
  }

  lemma StartHolds(m: Analysed, r: nat)
    requires WellAnalysed(m) && m.g == Sums() && r < 2
    ensures Holds(m, 0, Item(r, 0))
  {
    StartItem(m, 3);
    assert Wf(m);
    hide WellAnalysed, Wf, Holds;
    BringIn(m, 0, Item(3, 0), Item(r, 0));
  }

  lemma BringIn(m: Analysed, k: nat, y: Item, x: Item)
    requires Wf(m) && m.g == Sums() && Holds(m, k, y) && Spawns(m.g, y, x)
    ensures Holds(m, k, x)
  {
    ItemFacts(m, k, y);
    SpawnInClosure(m.g, m.states[k].basis, y, x);
    assert StateOk(m.g, m.an, m.states[k], k);
    hide Wf;
  }

  /** The state behind an edge holds whatever was in front of the symbol. */
  lemma Carried(m: Analysed, k: nat, y: Item, z: Item, sym: Symbol, a: nat) returns (to: nat)
    requires WellAnalysed(m) && m.g == Sums() && Holds(m, k, y) && Holds(m, k, z) && Before(m.g, y, sym) && Before(m.g, z, sym) && sym == SymbolOf(m.g, a)
    requires Covers(m.g, sym, a)
    ensures Edge(m.g, m.states, k, a, to) && Holds(m, to, Advance(y)) && Holds(m, to, Advance(z))
    ensures forall t: nat :: Follows(m, k, y, t) ==> Follows(m, to, Advance(y), t)
  {
    to := MoveDot(m, k, y, sym, a);
    var to' := MoveDot(m, k, z, sym, a);
    hide Follows;
    EdgesAgree(m, k, a, to, to');
  }

  /** The state after `E op E`. */
  ghost predicate AfterOperation(m: Analysed, r: nat, k: nat) {
    exists k1: nat, k2: nat :: Edge(m.g, m.states, 0, E, k1) && Edge(m.g, m.states, k1, Operator(r), k2) && Edge(m.g, m.states, k2, E, k)
  }

  lemma UpToOperator(m: Analysed, r: nat) returns (k1: nat, k2: nat)
    requires WellAnalysed(m) && m.g == Sums() && r < 2
    ensures Edge(m.g, m.states, 0, E, k1) && Edge(m.g, m.states, k1, Operator(r), k2) && Holds(m, k2, Item(r, 2))
    ensures Follows(m, k2, Item(r, 2), PLUS) && Follows(m, k2, Item(r, 2), STAR)
  {
    AtStart(m, r, PLUS);
    AtStart(m, r, STAR);
    hide WellAnalysed, Wf, Edge, Holds, Follows;
    k1 := MoveDot(m, 0, Item(r, 0), Nonterminal(E), E);
    k2 := MoveDot(m, k1, Item(r, 1), Terminal(Operator(r)), Operator(r));
  }

  /** The path to that state. */
  lemma OperationPath(m: Analysed, r: nat) returns (k1: nat, k2: nat, k: nat)
    requires WellAnalysed(m) && m.g == Sums() && r < 2
    ensures Edge(m.g, m.states, 0, E, k1) && Edge(m.g, m.states, k1, Operator(r), k2) && Edge(m.g, m.states, k2, E, k)
    ensures Holds(m, k, Item(r, 3)) && Holds(m, k, Item(0, 1)) && Holds(m, k, Item(1, 1))
    ensures Follows(m, k, Item(r, 3), PLUS) && Follows(m, k, Item(r, 3), STAR)
  {
    k1, k2 := UpToOperator(m, r);
    assert Wf(m);
    hide WellAnalysed, Wf, Edge, Holds, Follows;
    BringIn(m, k2, Item(r, 2), Item(0, 0));
    BringIn(m, k2, Item(r, 2), Item(1, 0));
    k := Carried(m, k2, Item(r, 2), Item(0, 0), Nonterminal(E), E);
    var k' := Carried(m, k2, Item(r, 2), Item(1, 0), Nonterminal(E), E);
    EdgesAgree(m, k2, E, k, k');
  }

  /** Only the rule of the operation itself is complete after it. */
  lemma OneRule(m: Analysed, k1: nat, k2: nat, k: nat, r: nat, t: nat, r': nat)
    requires Wf(m) && m.g == Sums() && r < 2 && Edge(m.g, m.states, k1, Operator(r), k2) && Edge(m.g, m.states, k2, E, k)
    requires k < |m.states| && Entitled(m, k, t, REDUCE, r) && Entitled(m, k, t, REDUCE, r')
    ensures r' == r
  {
    if r' != r {
      TwoReduces(m, k, t, r, r');
      ReduceFacts(m, k, t, r');
      Behind(m, k2, E, k, Item(r', 3));
      Behind(m, k1, Operator(r), k2, Item(r', 2));
      hide Wf;
      assert false;
    }
  }

  lemma OperatorShift(m: Analysed, k1: nat, k2: nat, k: nat, r: nat, t: nat) returns (to: nat)
    requires WellAnalysed(m) && m.g == Sums() && r < 2 && (t == PLUS || t == STAR)
    requires Edge(m.g, m.states, k1, Operator(r), k2) && Edge(m.g, m.states, k2, E, k)
    requires Holds(m, k, Item(if t == PLUS then 0 else 1, 1)) && Holds(m, k, Item(r, 3)) && Follows(m, k, Item(r, 3), t)
    ensures ShiftReduceOn(m, k, t, to, r)
  {
    assert Wf(m) && k < |m.states|;
    hide *;
    var y := Item(if t == PLUS then 0 else 1, 1);
    OperatorAhead(y.rule, t);
    to := MoveDot(m, k, y, Terminal(t), t);
    OperationLength(r);
    CompressionRuns.FollowsEntitled(m, k, r, t);
    ShiftEntitled(m, k, t, to);
    OnlyTwo(m, k1, k2, k, r, t, to);
    BothEntitled(m, k, t, to, r);
  }

  lemma OperatorAhead(q: nat, t: nat)
    requires q < 2 && t == Operator(q)
    ensures Before(Sums(), Item(q, 1), Terminal(t)) && Covers(Sums(), Terminal(t), t)
  {
  }

  lemma OperationLength(r: nat)
    requires r < 2
    ensures r < |Sums().rules| && |Sums().rules[r].rhs| == 3
  {
  }

  lemma BothEntitled(m: Analysed, k: nat, t: nat, to: nat, r: nat)
    requires Entitled(m, k, t, SHIFT, to) && Entitled(m, k, t, REDUCE, r)
    requires forall kind: Kind, arg: nat :: Entitled(m, k, t, kind, arg) ==> (kind == SHIFT && arg == to) || (kind == REDUCE && arg == r)
    ensures ShiftReduceOn(m, k, t, to, r)
  {
    hide Entitled;
  }

  lemma ShiftEntitled(m: Analysed, k: nat, t: nat, to: nat)
    requires Edge(m.g, m.states, k, t, to)
    ensures Entitled(m, k, t, SHIFT, to)
  {
  }

  lemma OnlyTwo(m: Analysed, k1: nat, k2: nat, k: nat, r: nat, t: nat, to: nat)
    requires Wf(m) && m.g == Sums() && r < 2 && Edge(m.g, m.states, k1, Operator(r), k2) && Edge(m.g, m.states, k2, E, k)
    requires k < |m.states| && Edge(m.g, m.states, k, t, to) && Entitled(m, k, t, REDUCE, r)
    ensures forall kind: Kind, arg: nat :: Entitled(m, k, t, kind, arg) ==> (kind == SHIFT && arg == to) || (kind == REDUCE && arg == r)
  {
    hide Wf, Edge, Entitled;
    forall kind: Kind, arg: nat | Entitled(m, k, t, kind, arg) ensures (kind == SHIFT && arg == to) || (kind == REDUCE && arg == r) {
      OnlyThese(m, k1, k2, k, r, t, to, kind, arg);
    }
  }

  lemma OnlyThese(m: Analysed, k1: nat, k2: nat, k: nat, r: nat, t: nat, to: nat, kind: Kind, arg: nat)
    requires Wf(m) && m.g == Sums() && r < 2 && Edge(m.g, m.states, k1, Operator(r), k2) && Edge(m.g, m.states, k2, E, k)
    requires k < |m.states| && Edge(m.g, m.states, k, t, to) && Entitled(m, k, t, REDUCE, r) && Entitled(m, k, t, kind, arg)
    ensures (kind == SHIFT && arg == to) || (kind == REDUCE && arg == r)
  {
    if kind == SHIFT { EdgesAgree(m, k, t, to, arg); }
    if kind == REDUCE { OneRule(m, k1, k2, k, r, t, arg); }
    if kind == ACCEPT { NothingElseOnStart(m, k, Action(t, REDUCE, r, 0)); }
    hide Wf, Edge, ReducesAt;
  }

  /** After `E PLUS E` the sum is reduced on PLUS and waits on STAR; after `E STAR E` the product is
      reduced on both. */
  ghost predicate GroupsAs(m: Analysed, lists: seq<seq<Action>>, r: nat, k: nat) {
    && k < |lists| && AfterOperation(m, r, k)
    && Lookup(lists[k], PLUS, m.g.nsymbol) == Some(Move(REDUCE, r))
    && if r == 0 then exists to: nat :: Edge(m.g, m.states, k, STAR, to) && Lookup(lists[k], STAR, m.g.nsymbol) == Some(Move(SHIFT, to))
       else Lookup(lists[k], STAR, m.g.nsymbol) == Some(Move(REDUCE, r))
  }

  lemma KeepsLookup(aps: seq<Action>, t: nat, kind: Kind, arg: nat, d: nat)
    requires Keeps(aps, t, kind, arg)
    ensures Lookup(aps, t, d) == Some(Move(kind, arg))
  {
  }

  lemma SettledHere(m: Analysed, p: Precedences, lists: seq<seq<Action>>, k: nat, t: nat, s: nat, r: nat)
    requires WellAnalysed(m) && p == Declared(map[0 := PLUS, 1 := STAR]) && ResolvedAll(m, p, lists) && r < 2 && (t == PLUS || t == STAR)
    requires ShiftReduceOn(m, k, t, s, r)
    ensures k < |lists| && Lookup(lists[k], t, m.g.nsymbol) == Some(if t == STAR && r == 0 then Move(SHIFT, s) else Move(REDUCE, r))
  {
    assert Entitled(m, k, t, SHIFT, s);
    assert k < |m.states|;
    assert Settled(m, p, k, lists[k]);
    hide WellAnalysed, ResolvedAll, Settled, ShiftReduceOn, Keeps, Lookup, ConflictsOn, Entitled;
    assert ShiftReduceSettled(m, p, lists[k], t, s, r) by { OneSettled(m, p, k, lists[k], t, s, r); }
    if t == STAR && r == 0 { KeepsLookup(lists[k], t, SHIFT, s, m.g.nsymbol); } else { KeepsLookup(lists[k], t, REDUCE, r, m.g.nsymbol); }
  }

  lemma OneSettled(m: Analysed, p: Precedences, k: nat, aps: seq<Action>, t: nat, s: nat, r: nat)
    requires Settled(m, p, k, aps) && ShiftReduceOn(m, k, t, s, r)
    ensures ShiftReduceSettled(m, p, aps, t, s, r)
  {
    hide ShiftReduceSettled, ShiftReduceOn, TwoReducesOn, ReducesSettled;
  }

  lemma OperationGrouped(m: Analysed, p: Precedences, lists: seq<seq<Action>>, r: nat) returns (k: nat)
    requires WellAnalysed(m) && m.g == Sums() && r < 2 && p == Declared(map[0 := PLUS, 1 := STAR]) && ResolvedAll(m, p, lists)
    ensures GroupsAs(m, lists, r, k)
  {
    var k1, k2;
    k1, k2, k := OperationPath(m, r);
    assert AfterOperation(m, r, k);
    hide WellAnalysed, ResolvedAll, Holds, Follows, AfterOperation, Lookup;
    var plus := OperatorShift(m, k1, k2, k, r, PLUS);
    var star := OperatorShift(m, k1, k2, k, r, STAR);
    SettledHere(m, p, lists, k, PLUS, plus, r);
    SettledHere(m, p, lists, k, STAR, star, r);
    assert Entitled(m, k, STAR, SHIFT, star);
    hide ShiftReduceOn, Edge;
  }

  /** The generator on this grammar reports no conflict and groups as declared. */
  method PrecedenceExample(mem: Memory)
    returns (T: Tables, nconflict: nat, ghost m: Analysed, ghost lists: seq<seq<Action>>, ghost sum: nat, ghost product: nat)
    ensures m.g == Sums() && nconflict == 0 && GroupsAs(m, lists, 0, sum) && GroupsAs(m, lists, 1, product)
  {
    SumsAreValid();
    var precsym := FindRulePrecedences(Sums(), LEVELS, map[]);
    LendersOf(precsym);
    var p := Declared(precsym);
    assert p == Declared(map[0 := PLUS, 1 := STAR]) && NoNonassoc(p);
    hide *;
    ghost var meaning, finals;
    T, nconflict, meaning, m, lists, finals := Generate(Sums(), p, mem);
    sum := OperationGrouped(m, p, lists, 0);
    product := OperationGrouped(m, p, lists, 1);
    AllSumsDecided(m, p);
  }

  lemma AllSumsDecided(m: Analysed, p: Precedences)
    requires WellAnalysed(m) && m.g == Sums() && p == Declared(map[0 := PLUS, 1 := STAR])
    ensures AllDecidedIn(m, p)
  {
    assert TokensDistinct(m.g);
    hide DecidedAt, Sums;
    forall k | 0 <= k < |m.states| ensures DecidedAt(m, p, k) { SumsDecided(m, p, k); }
  }
}
