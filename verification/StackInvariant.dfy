/** Why shift-reduce parsing over the automaton is sound: what the states on the stack say
    about the symbols below them. */
module StackInvariant {
  import opened Grammars
  import opened FirstSets
  import opened Closures
  import opened Automata

  /** A stack symbol (a token or nonterminal number) that a grammar symbol stands for. */
  predicate Covers(g: Grammar, s: Symbol, major: nat) {
    match s
    case Terminal(t) => t == major
    case Nonterminal(a) => a == major && g.nterminal <= a
    case MultiTerminal(ts) => major in ts && major < g.nterminal
  }

  function SymbolOf(g: Grammar, major: nat): Symbol {
    if major < g.nterminal then Terminal(major) else Nonterminal(major)
  }

  function SymbolsOf(g: Grammar, majors: seq<nat>): (r: seq<Symbol>)
    ensures |r| == |majors|
  {
    seq(|majors|, i requires 0 <= i < |majors| => SymbolOf(g, majors[i]))
  }

  // ---- What membership in a closure means ----

  lemma {:induction false} DottedInBasis(g: Grammar, basis: seq<Item>, n: nat, x: Item)
    requires InClosureBy(g, basis, n, x) && x.dot > 0
    ensures x in basis
  {
    if n > 0 && InClosureBy(g, basis, n - 1, x) {
      DottedInBasis(g, basis, n - 1, x);
    }
  }

  lemma {:induction false} UndottedSpawned(g: Grammar, basis: seq<Item>, n: nat, x: Item)
    requires InClosureBy(g, basis, n, x) && x !in basis
    ensures exists y :: InClosure(g, basis, y) && Spawns(g, y, x)
  {
    if n > 0 {
      if InClosureBy(g, basis, n - 1, x) {
        UndottedSpawned(g, basis, n - 1, x);
      } else {
        var y :| InClosureBy(g, basis, n - 1, y) && Spawns(g, y, x);
        assert InClosure(g, basis, y);
      }
    }
  }

  /** A configuration with its dot inside a state comes from the state's basis. */
  lemma DottedItem(g: Grammar, an: Analysis, states: seq<State>, k: nat, x: Item)
    requires Sized(g, an) && IsAutomaton(g, an, states) && k < |states|
    requires x in states[k].closed.items && x.dot > 0
    ensures x in states[k].basis && k > 0
  {
    assert StateOk(g, an, states[k], k);
    assert InClosure(g, states[k].basis, x);
    var n: nat :| InClosureBy(g, states[k].basis, n, x);
    DottedInBasis(g, states[k].basis, n, x);
  }

  /** A configuration with its dot at the left is a start rule of state 0 or has a shift on its
      left-hand side waiting for it. */
  lemma UndottedItem(g: Grammar, an: Analysis, states: seq<State>, k: nat, x: Item)
    requires Sized(g, an) && IsAutomaton(g, an, states) && k < |states|
    requires x in states[k].closed.items && x.dot == 0
    ensures ValidItem(g, x)
    ensures (k == 0 && Lhs(g, x) == g.start) || exists y :: y in states[k].closed.items && Before(g, y, Nonterminal(Lhs(g, x)))
  {
    assert StateOk(g, an, states[k], k);
    assert InClosure(g, states[k].basis, x);
    var n: nat :| InClosureBy(g, states[k].basis, n, x);
    if x in states[k].basis {
      assert IsStartItem(g, x);
    } else {
      UndottedSpawned(g, states[k].basis, n, x);
    }
  }

  // ---- Paths ----

  ghost predicate Edge(g: Grammar, states: seq<State>, from: nat, major: nat, to: nat) {
    from < |states| && exists sh :: sh in states[from].shifts && Covers(g, sh.sym, major) && sh.target == to
  }

  /** `path` are the states passed through while the symbols `majors` were pushed. */
  ghost predicate IsPath(g: Grammar, states: seq<State>, path: seq<nat>, majors: seq<nat>) {
    && |path| == |majors| + 1 && path[0] == 0
    && forall i :: 0 <= i < |majors| ==> Edge(g, states, path[i], majors[i], path[i + 1])
  }

  lemma PathInRange(g: Grammar, an: Analysis, states: seq<State>, path: seq<nat>, majors: seq<nat>, i: nat)
    requires Sized(g, an) && IsAutomaton(g, an, states) && IsPath(g, states, path, majors) && i < |path|
    ensures path[i] < |states| && (i > 0 ==> path[i] > 0)
  {
    if i > 0 {
      hide IsAutomaton;
      assert Edge(g, states, path[i - 1], majors[i - 1], path[i]);
      var sh :| sh in states[path[i - 1]].shifts && sh.target == path[i];
      ShiftFits(g, an, states, path[i - 1], sh);
    }
  }

  /** Going back over one symbol: the dot moves left, in the state below. */
  lemma StepBack(g: Grammar, an: Analysis, states: seq<State>, from: nat, major: nat, to: nat, x: Item)
    requires Sized(g, an) && IsAutomaton(g, an, states) && Edge(g, states, from, major, to) && to < |states|
    requires x in states[to].closed.items && x.dot > 0
    ensures Item(x.rule, x.dot - 1) in states[from].closed.items
    ensures x.rule < |g.rules| && x.dot <= |g.rules[x.rule].rhs| && Covers(g, g.rules[x.rule].rhs[x.dot - 1], major)
  {
    DottedItem(g, an, states, to, x);
    hide IsAutomaton;
    var sh :| sh in states[from].shifts && Covers(g, sh.sym, major) && sh.target == to;
    ShiftFits(g, an, states, from, sh);
    assert x in Members(states[to].basis);
    assert x in Moved(g, states[from].closed.items, sh.sym);
    var y :| y in states[from].closed.items && Before(g, y, sh.sym) && x == Advance(y);
  }

  lemma ShiftFits(g: Grammar, an: Analysis, states: seq<State>, k: nat, sh: Shift)
    requires Sized(g, an) && IsAutomaton(g, an, states) && k < |states| && sh in states[k].shifts
    ensures 0 < sh.target < |states| && Members(states[sh.target].basis) == Moved(g, states[k].closed.items, sh.sym)
    ensures exists y :: y in states[k].closed.items && Before(g, y, sh.sym)
  {
    assert Complete(g, states, k);
    assert ShiftOk(g, states, k, sh);
  }

  /** The symbols on top of the stack match the part of the rule before the dot, and the state
      below them holds the rule with its dot at the left end. */
  ghost predicate OnTop(g: Grammar, majors: seq<nat>, x: Item)
    requires x.rule < |g.rules|
  {
    && x.dot <= |majors| && x.dot <= |g.rules[x.rule].rhs|
    && forall i :: 0 <= i < x.dot ==> Covers(g, g.rules[x.rule].rhs[i], majors[|majors| - x.dot + i])
  }

  lemma {:induction false} RuleOnStack(g: Grammar, an: Analysis, states: seq<State>, path: seq<nat>, majors: seq<nat>, x: Item)
    requires Sized(g, an) && IsAutomaton(g, an, states) && IsPath(g, states, path, majors)
    requires path[|majors|] < |states| && x in states[path[|majors|]].closed.items
    ensures x.rule < |g.rules| && OnTop(g, majors, x)
    ensures path[|majors| - x.dot] < |states| && Item(x.rule, 0) in states[path[|majors| - x.dot]].closed.items
    decreases x.dot
  {
    hide IsAutomaton, Covers, Edge;
    if x.dot == 0 {
      UndottedItem(g, an, states, path[|majors|], x);
    } else {
      DottedItem(g, an, states, path[|majors|], x);
      var m := |majors| - 1;
      PathInRange(g, an, states, path, majors, m);
      StepBack(g, an, states, path[m], majors[m], path[m + 1], x);
      ShorterPath(g, states, path, majors);
      RuleOnStack(g, an, states, path[..m + 1], majors[..m], Item(x.rule, x.dot - 1));
      OnTopExtend(g, majors, x);
    }
  }

  lemma OnTopExtend(g: Grammar, majors: seq<nat>, x: Item)
    requires x.rule < |g.rules| && x.dot > 0 && majors != [] && x.dot <= |g.rules[x.rule].rhs|
    requires OnTop(g, majors[..|majors| - 1], Item(x.rule, x.dot - 1))
    requires Covers(g, g.rules[x.rule].rhs[x.dot - 1], majors[|majors| - 1])
    ensures OnTop(g, majors, x)
  {
    hide Covers;
    var below := majors[..|majors| - 1];
    forall i | 0 <= i < x.dot ensures Covers(g, g.rules[x.rule].rhs[i], majors[|majors| - x.dot + i]) {
      if i < x.dot - 1 {
        assert below[|below| - (x.dot - 1) + i] == majors[|majors| - x.dot + i];
      }
    }
  }

  lemma ShorterPath(g: Grammar, states: seq<State>, path: seq<nat>, majors: seq<nat>)
    requires IsPath(g, states, path, majors) && majors != []
    ensures IsPath(g, states, path[..|majors|], majors[..|majors| - 1])
  {
    hide Edge;
    var m := |majors| - 1;
    assert forall i :: 0 <= i < m ==> Edge(g, states, path[i], majors[i], path[i + 1]);
  }

  lemma {:induction false} PrefixPath(g: Grammar, states: seq<State>, path: seq<nat>, majors: seq<nat>, n: nat)
    requires IsPath(g, states, path, majors) && n <= |majors|
    ensures IsPath(g, states, path[..n + 1], majors[..n])
  {
    hide Edge;
    assert forall i :: 0 <= i < n ==> Edge(g, states, path[i], majors[i], path[i + 1]);
  }

  lemma LongerPath(g: Grammar, states: seq<State>, path: seq<nat>, majors: seq<nat>, major: nat, to: nat)
    requires IsPath(g, states, path, majors) && Edge(g, states, path[|majors|], major, to)
    ensures IsPath(g, states, path + [to], majors + [major])
  {
    hide Edge;
  }

  // ---- Reductions are derivations backwards ----

  lemma CoverDerives(g: Grammar, s: Symbol, major: nat)
    requires Covers(g, s, major) && ValidSymbol(g, s)
    ensures Derives(g, [s], [SymbolOf(g, major)])
  {
    match s
    case Terminal(_) => DerivesRefl(g, [s]);
    case Nonterminal(_) => DerivesRefl(g, [s]);
    case MultiTerminal(_) => DerivesExpand(g, s, [Terminal(major)]);
  }

  lemma {:induction false} CoversDerive(g: Grammar, w: seq<Symbol>, majors: seq<nat>)
    requires |w| == |majors|
    requires forall i :: 0 <= i < |w| ==> ValidSymbol(g, w[i]) && Covers(g, w[i], majors[i])
    ensures Derives(g, w, SymbolsOf(g, majors))
  {
    hide Derives, Covers;
    if w == [] {
      DerivesRefl(g, w);
      assert SymbolsOf(g, majors) == w;
    } else {
      CoverDerives(g, w[0], majors[0]);
      CoversDerive(g, w[1..], majors[1..]);
      DerivesConcat(g, [w[0]], [SymbolOf(g, majors[0])], w[1..], SymbolsOf(g, majors[1..]));
      assert w == [w[0]] + w[1..];
      assert SymbolsOf(g, majors) == [SymbolOf(g, majors[0])] + SymbolsOf(g, majors[1..]);
    }
  }

  /** Replacing a matched right-hand side by its left-hand side keeps the consumed tokens derivable. */
  lemma ReduceDerives(g: Grammar, majors: seq<nat>, r: nat, word: seq<Symbol>)
    requires ValidGrammar(g) && r < |g.rules| && OnTop(g, majors, Item(r, |g.rules[r].rhs|))
    requires Derives(g, SymbolsOf(g, majors), word)
    ensures Derives(g, SymbolsOf(g, majors[..|majors| - |g.rules[r].rhs|] + [g.rules[r].lhs]), word)
  {
    hide Derives, Covers;
    var rule, n := g.rules[r], |majors| - |g.rules[r].rhs|;
    var below, top := majors[..n], majors[n..];
    assert ValidRule(g, rule);
    CoversDerive(g, rule.rhs, top);
    assert rule == Rule(rule.lhs, rule.rhs) && rule in g.rules;
    DerivesExpand(g, Nonterminal(rule.lhs), rule.rhs);
    DerivesTrans(g, [Nonterminal(rule.lhs)], rule.rhs, SymbolsOf(g, top));
    DerivesRefl(g, SymbolsOf(g, below));
    DerivesConcat(g, SymbolsOf(g, below), SymbolsOf(g, below), [Nonterminal(rule.lhs)], SymbolsOf(g, top));
    assert SymbolsOf(g, below + [rule.lhs]) == SymbolsOf(g, below) + [Nonterminal(rule.lhs)];
    assert SymbolsOf(g, majors) == SymbolsOf(g, below) + SymbolsOf(g, top);
    DerivesTrans(g, SymbolsOf(g, below + [rule.lhs]), SymbolsOf(g, majors), word);
  }

  lemma ShiftDerives(g: Grammar, majors: seq<nat>, consumed: seq<nat>, t: nat)
    requires t < g.nterminal && Derives(g, SymbolsOf(g, majors), Word(consumed))
    ensures Derives(g, SymbolsOf(g, majors + [t]), Word(consumed + [t]))
  {
    hide Derives;
    DerivesRefl(g, [Terminal(t)]);
    DerivesConcat(g, SymbolsOf(g, majors), Word(consumed), [Terminal(t)], [Terminal(t)]);
    assert SymbolsOf(g, majors + [t]) == SymbolsOf(g, majors) + [Terminal(t)];
    assert Word(consumed + [t]) == Word(consumed) + [Terminal(t)];
  }
}
