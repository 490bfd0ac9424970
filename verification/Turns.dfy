/** How many turns one token can take: a parser that goes on longer than it has stacks to show
    repeats one, and then some nonterminal derives itself. */
module Turns {
  import opened Grammars
  import opened Closures
  import opened Automata
  import opened StackInvariant
  import opened Driver
  import opened DriverRuns

  // ---- Deriving something in at least one step ----

  ghost predicate DerivesOn(g: Grammar, a: seq<Symbol>, b: seq<Symbol>) {
    exists n: nat :: n > 0 && DerivesIn(g, n, a, b)
  }

  /** Some nonterminal derives itself. */
  ghost predicate Cyclic(g: Grammar) { exists a: nat :: DerivesOn(g, [Nonterminal(a)], [Nonterminal(a)]) }

  lemma OnThenMore(g: Grammar, a: seq<Symbol>, b: seq<Symbol>, c: seq<Symbol>)
    requires DerivesOn(g, a, b) && Derives(g, b, c)
    ensures DerivesOn(g, a, c)
  {
    var n: nat :| n > 0 && DerivesIn(g, n, a, b);
    var k :| DerivesIn(g, k, b, c);
    DerivesInTrans(g, n, k, a, b, c);
  }

  lemma OnIsMore(g: Grammar, a: seq<Symbol>, b: seq<Symbol>)
    requires DerivesOn(g, a, b)
    ensures Derives(g, a, b)
  {
  }

  lemma OnInContext(g: Grammar, p: seq<Symbol>, a: seq<Symbol>, b: seq<Symbol>)
    requires DerivesOn(g, a, b)
    ensures DerivesOn(g, p + a, p + b)
  {
    var n: nat :| n > 0 && DerivesIn(g, n, a, b);
    DerivesInContext(g, n, p, a, b, []);
    assert p + a + [] == p + a && p + b + [] == p + b;
  }

  lemma RuleOn(g: Grammar, r: nat)
    requires r < |g.rules|
    ensures DerivesOn(g, [Nonterminal(g.rules[r].lhs)], g.rules[r].rhs)
  {
    var x, w := Nonterminal(g.rules[r].lhs), g.rules[r].rhs;
    assert Rule(g.rules[r].lhs, w) == g.rules[r] && g.rules[r] in g.rules;
    assert [x][..0] + w + [x][1..] == w;
    assert StepAt(g, [x], w, 0, w);
    assert Step(g, [x], w) && DerivesIn(g, 1 - 1, w, w);
    assert DerivesIn(g, 1, [x], w);
  }

  // ---- Reductions above an untouched part of the stack ----

  /** The symbols above the first `b` entries. */
  function Above(g: Grammar, stack: seq<Entry>, b: nat): seq<Symbol>
    requires 0 < b <= |stack|
  {
    SymbolsOf(g, Majors(stack)[b - 1..])
  }

  lemma ReduceAbove(m: Meaning, stack: seq<Entry>, stack': seq<Entry>, r: nat, b: nat)
    requires ValidGrammar(m.g) && ReducesTo(m, stack, stack', r) && 0 < b < |stack'|
    ensures b <= |stack| && stack[..b] == stack'[..b] && DerivesOn(m.g, Above(m.g, stack', b), Above(m.g, stack, b))
  {
    var g, rule := m.g, m.g.rules[r];
    var majors, n := Majors(stack), |stack'| - 1;
    var top := majors[n - 1..];
    assert stack[..b] == stack[..n][..b] == stack'[..n][..b];
    hide Derives, Covers, DerivesOn;
    assert ValidRule(g, rule);
    CoversDerive(g, rule.rhs, top);
    RuleOn(g, r);
    OnThenMore(g, [Nonterminal(rule.lhs)], rule.rhs, SymbolsOf(g, top));
    OnInContext(g, SymbolsOf(g, majors[b - 1..n - 1]), [Nonterminal(rule.lhs)], SymbolsOf(g, top));
    ReduceSymbols(m, stack, stack', r, b);
  }

  lemma ReduceSymbols(m: Meaning, stack: seq<Entry>, stack': seq<Entry>, r: nat, b: nat)
    requires ValidGrammar(m.g) && ReducesTo(m, stack, stack', r) && 0 < b < |stack'|
    ensures var kept, n := SymbolsOf(m.g, Majors(stack)[b - 1..|stack'| - 2]), |stack'| - 1;
      && Above(m.g, stack', b) == kept + [Nonterminal(m.g.rules[r].lhs)]
      && Above(m.g, stack, b) == kept + SymbolsOf(m.g, Majors(stack)[n - 1..])
  {
    hide OnTop;
    var n := |stack'| - 1;
    assert ValidRule(m.g, m.g.rules[r]);
    assert forall i :: 0 <= i < n ==> stack'[i] == stack'[..n][i] == stack[..n][i] == stack[i];
    assert Majors(stack')[b - 1..] == Majors(stack)[b - 1..n - 1] + [m.g.rules[r].lhs];
    assert Majors(stack)[b - 1..] == Majors(stack)[b - 1..n - 1] + Majors(stack)[n - 1..];
  }

  /** A run of reductions: the stacks, and the rule reduced by between each and the next. */
  ghost predicate Reductions(m: Meaning, stacks: seq<seq<Entry>>, rules: seq<nat>) {
    |stacks| == |rules| + 1 && forall i :: 0 <= i < |rules| ==> ReducesTo(m, stacks[i], stacks[i + 1], rules[i])
  }

  /** While the first `b` entries are not touched, the symbols above them derive what was above them before. */
  lemma {:induction false} ReductionsAbove(m: Meaning, stacks: seq<seq<Entry>>, rules: seq<nat>, p: nat, q: nat, b: nat)
    requires ValidGrammar(m.g) && Reductions(m, stacks, rules) && p <= q < |stacks| && 0 < b
    requires forall i :: p <= i <= q ==> b < |stacks[i]|
    ensures stacks[p][..b] == stacks[q][..b] && Derives(m.g, Above(m.g, stacks[q], b), Above(m.g, stacks[p], b))
    ensures p < q ==> DerivesOn(m.g, Above(m.g, stacks[q], b), Above(m.g, stacks[p], b))
    decreases q
  {
    hide ReducesTo, Derives, DerivesOn, Above;
    if p == q {
      DerivesRefl(m.g, Above(m.g, stacks[p], b));
    } else {
      ReductionsAbove(m, stacks, rules, p, q - 1, b);
      ReduceAbove(m, stacks[q - 1], stacks[q - 1 + 1], rules[q - 1], b);
      OnThenMore(m.g, Above(m.g, stacks[q], b), Above(m.g, stacks[q - 1], b), Above(m.g, stacks[p], b));
      OnIsMore(m.g, Above(m.g, stacks[q], b), Above(m.g, stacks[p], b));
    }
  }

  /** The shortest stack between two others. */
  lemma {:induction false} Shortest(stacks: seq<seq<Entry>>, i: nat, j: nat) returns (k: nat)
    requires i <= j < |stacks|
    ensures i <= k <= j && forall q :: i <= q <= j ==> |stacks[k]| <= |stacks[q]|
    decreases j
  {
    k := j;
    if i < j {
      var k' := Shortest(stacks, i, j - 1);
      if |stacks[k']| < |stacks[j]| { k := k'; }
    }
  }

  /** Reductions that come back to the same stack derive a nonterminal from itself. */
  lemma RepeatIsCyclic(m: Meaning, stacks: seq<seq<Entry>>, rules: seq<nat>, i: nat, j: nat)
    requires ValidGrammar(m.g) && Reductions(m, stacks, rules) && i < j < |stacks| && stacks[i] == stacks[j]
    ensures Cyclic(m.g)
  {
    var k := Shortest(stacks, i + 1, j);
    assert ReducesTo(m, stacks[k - 1], stacks[k - 1 + 1], rules[k - 1]);
    var b, a := |stacks[k]| - 1, m.g.rules[rules[k - 1]].lhs;
    assert b > 0 by { hide OnTop; }
    hide ReducesTo, DerivesOn, Derives;
    ReductionsAbove(m, stacks, rules, k, j, b);
    ReductionsAbove(m, stacks, rules, i, k, b);
    TopSymbol(m, stacks[k - 1], stacks[k], rules[k - 1]);
    OnThenMore(m.g, [Nonterminal(a)], Above(m.g, stacks[i], b), [Nonterminal(a)]);
  }

  lemma TopSymbol(m: Meaning, stack: seq<Entry>, stack': seq<Entry>, r: nat)
    requires ValidGrammar(m.g) && ReducesTo(m, stack, stack', r)
    ensures |stack'| >= 2 && Above(m.g, stack', |stack'| - 1) == [Nonterminal(m.g.rules[r].lhs)]
  {
    hide OnTop;
    assert ValidRule(m.g, m.g.rules[r]);
    assert Majors(stack')[|stack'| - 2..] == [m.g.rules[r].lhs];
  }

  // ---- Counting stacks ----

  function Pow(b: nat, n: nat): nat { if n == 0 then 1 else b * Pow(b, n - 1) }

  /** Stacks as numbers in base `codes * nsymbol + 1` without the digit 0. */
  function Digit(e: Entry, nsymbol: nat): int { e.stateno * nsymbol + e.major + 1 }

  predicate EntryOk(e: Entry, codes: nat, nsymbol: nat) { 0 <= e.stateno < codes && e.major < nsymbol }

  function Number(stack: seq<Entry>, codes: nat, nsymbol: nat): int {
    if stack == [] then 0
    else Number(stack[..|stack| - 1], codes, nsymbol) * (codes * nsymbol + 1) + Digit(stack[|stack| - 1], nsymbol)
  }

  lemma DigitBounds(e: Entry, codes: nat, nsymbol: nat)
    requires EntryOk(e, codes, nsymbol)
    ensures 0 < Digit(e, nsymbol) <= codes * nsymbol
  {
    assert e.stateno * nsymbol <= (codes - 1) * nsymbol;
    assert (codes - 1) * nsymbol + nsymbol == codes * nsymbol;
  }

  lemma Multiplied(x: int, y: int, b: nat)
    requires x <= y
    ensures x * b <= y * b && x * b == (x - 1) * b + b
  {
  }

  /** Quotient and remainder are determined. */
  lemma SameParts(q: int, r: int, q': int, r': int, b: nat)
    requires 0 <= r < b && 0 <= r' < b && q * b + r == q' * b + r'
    ensures q == q' && r == r'
  {
    if q > q' { Multiplied(q' + 1, q, b); }
    if q < q' { Multiplied(q + 1, q', b); }
  }

  lemma DigitDetermines(e: Entry, e': Entry, nsymbol: nat)
    requires e.major < nsymbol && e'.major < nsymbol && Digit(e, nsymbol) == Digit(e', nsymbol)
    ensures e == e'
  {
    SameParts(e.stateno, e.major, e'.stateno, e'.major, nsymbol);
  }

  predicate StackOk(stack: seq<Entry>, codes: nat, nsymbol: nat) { forall i :: 0 <= i < |stack| ==> EntryOk(stack[i], codes, nsymbol) }

  lemma {:induction false} NumberBounds(stack: seq<Entry>, codes: nat, nsymbol: nat, n: nat)
    requires StackOk(stack, codes, nsymbol) && |stack| <= n
    ensures 0 <= Number(stack, codes, nsymbol) < Pow(codes * nsymbol + 1, n)
    decreases n
  {
    var b := codes * nsymbol + 1;
    if stack == [] {
      PowPositive(b, n);
    } else {
      var pre := stack[..|stack| - 1];
      NumberBounds(pre, codes, nsymbol, n - 1);
      DigitBounds(stack[|stack| - 1], codes, nsymbol);
      Multiplied(Number(pre, codes, nsymbol) + 1, Pow(b, n - 1), b);
      Multiplied(0, Number(pre, codes, nsymbol), b);
    }
  }

  lemma {:induction false} PowPositive(b: nat, n: nat)
    requires b > 0
    ensures Pow(b, n) > 0
  {
    if n > 0 { PowPositive(b, n - 1); }
  }

  lemma {:induction false} NumberDetermines(s: seq<Entry>, s': seq<Entry>, codes: nat, nsymbol: nat)
    requires StackOk(s, codes, nsymbol) && StackOk(s', codes, nsymbol) && Number(s, codes, nsymbol) == Number(s', codes, nsymbol)
    ensures s == s'
    decreases |s|
  {
    var b := codes * nsymbol + 1;
    if s != [] && s' != [] {
      var p, p', e, e' := s[..|s| - 1], s'[..|s'| - 1], s[|s| - 1], s'[|s'| - 1];
      DigitBounds(e, codes, nsymbol);
      DigitBounds(e', codes, nsymbol);
      SameParts(Number(p, codes, nsymbol), Digit(e, nsymbol), Number(p', codes, nsymbol), Digit(e', nsymbol), b);
      DigitDetermines(e, e', nsymbol);
      NumberDetermines(p, p', codes, nsymbol);
      assert s == p + [e] && s' == p' + [e'];
    } else {
      NotZero(s, codes, nsymbol);
      NotZero(s', codes, nsymbol);
    }
  }

  lemma NotZero(s: seq<Entry>, codes: nat, nsymbol: nat)
    requires StackOk(s, codes, nsymbol)
    ensures Number(s, codes, nsymbol) == 0 <==> s == []
  {
    if s != [] {
      NumberBounds(s[..|s| - 1], codes, nsymbol, |s|);
      DigitBounds(s[|s| - 1], codes, nsymbol);
      assert Number(s[..|s| - 1], codes, nsymbol) * (codes * nsymbol + 1) >= 0;
    }
  }

  /** More than `n` numbers below `n` are not all different. */
  lemma {:induction false} Pigeonhole(xs: seq<int>, n: nat) returns (i: nat, j: nat)
    requires |xs| > n && forall k :: 0 <= k < |xs| ==> 0 <= xs[k] < n
    ensures i < j < |xs| && xs[i] == xs[j]
    decreases n
  {
    var last := xs[|xs| - 1];
    if last in xs[..|xs| - 1] {
      i :| 0 <= i < |xs| - 1 && xs[i] == last;
      j := |xs| - 1;
    } else {
      var ys := seq(|xs| - 1, k requires 0 <= k < |xs| - 1 => if xs[k] == n - 1 then last else xs[k]);
      forall k | 0 <= k < |ys| ensures 0 <= ys[k] < n - 1 { assert xs[k] == xs[..|xs| - 1][k]; }
      i, j := Pigeonhole(ys, n - 1);
      assert xs[i] == xs[..|xs| - 1][i] && xs[j] == xs[..|xs| - 1][j];
    }
  }

  // ---- The bound ----

  lemma EdgeMajor(m: Meaning, from: nat, major: nat, to: nat)
    requires Consistent(m) && Edge(m.g, m.states, from, major, to)
    ensures major < m.g.nsymbol
  {
    var sh :| sh in m.states[from].shifts && Covers(m.g, sh.sym, major) && sh.target == to;
    ShiftFits(m.g, m.an, m.states, from, sh);
    hide IsAutomaton;
    var y :| y in m.states[from].closed.items && Before(m.g, y, sh.sym);
    assert ValidRule(m.g, m.g.rules[y.rule]);
    assert ValidSymbol(m.g, sh.sym);
  }

  lemma EntryInRange(m: Meaning, T: Tables, stack: seq<Entry>, path: seq<nat>, consumed: seq<nat>, i: nat)
    requires Consistent(m) && TablesSound(m, T) && Running(m, T, stack, path, consumed) && i < |stack|
    ensures EntryOk(stack[i], T.minReduce + T.nrule, m.g.nsymbol)
  {
    SoundRanges(m, T);
    assert 0 < m.g.nsymbol && 0 < T.nxstate;
    hide TablesSound, Derives, Edge;
    if i > 0 {
      assert Edge(m.g, m.states, path[i - 1], Majors(stack)[i - 1], path[i - 1 + 1]);
      EdgeMajor(m, path[i - 1], Majors(stack)[i - 1], path[i]);
    }
  }

  lemma RunningOk(m: Meaning, T: Tables, stack: seq<Entry>, path: seq<nat>, consumed: seq<nat>)
    requires Consistent(m) && TablesSound(m, T) && Running(m, T, stack, path, consumed)
    ensures StackOk(stack, T.minReduce + T.nrule, m.g.nsymbol)
  {
    hide Consistent, TablesSound, Running, EntryOk;
    forall i | 0 <= i < |stack| ensures EntryOk(stack[i], T.minReduce + T.nrule, m.g.nsymbol) {
      EntryInRange(m, T, stack, path, consumed, i);
    }
  }

  ghost predicate InRange(stacks: seq<seq<Entry>>, codes: nat, nsymbol: nat, limit: nat) {
    forall i :: 0 <= i < |stacks| ==> StackOk(stacks[i], codes, nsymbol) && |stacks[i]| <= limit
  }

  /** A call that has not ended has gone through as many stacks as it was given turns. */
  lemma {:induction false} Trace(m: Meaning, T: Tables, limit: nat, stack: seq<Entry>, path: seq<nat>, consumed: seq<nat>, t: nat, fuel: nat)
    returns (stacks: seq<seq<Entry>>, rules: seq<nat>)
    requires Consistent(m) && TablesSound(m, T) && Running(m, T, stack, path, consumed) && t < m.g.nterminal && 0 < |stack| <= limit
    requires Fed(T, limit, stack, t, fuel).0 == OutOfFuel
    ensures |stacks| == fuel + 1 && stacks[0] == stack && Reductions(m, stacks, rules) && InRange(stacks, T.minReduce + T.nrule, m.g.nsymbol, limit)
    decreases fuel
  {
    hide Consistent, TablesSound, Running, RoundOf, Fed, ReducesTo, StackOk;
    RunningOk(m, T, stack, path, consumed);
    if fuel == 0 {
      stacks, rules := [stack], [];
    } else {
      var path', r := ContinueRuns(m, T, limit, stack, path, consumed, t);
      FedRound(T, limit, stack, t, fuel);
      var stack' := RoundOf(T, limit, stack, t).1;
      BottomState(m, T, stack', path', consumed);
      var later, rs := Trace(m, T, limit, stack', path', consumed, t, fuel - 1);
      stacks, rules := [stack] + later, [r] + rs;
      LongerTrace(m, stack, later, r, rs);
    }
  }

  lemma LongerTrace(m: Meaning, stack: seq<Entry>, stacks: seq<seq<Entry>>, r: nat, rules: seq<nat>)
    requires Reductions(m, stacks, rules) && ReducesTo(m, stack, stacks[0], r)
    ensures Reductions(m, [stack] + stacks, [r] + rules)
  {
    hide ReducesTo;
    forall i | 0 <= i < |[r] + rules| ensures ReducesTo(m, ([stack] + stacks)[i], ([stack] + stacks)[i + 1], ([r] + rules)[i]) {
      if i > 0 { assert ReducesTo(m, stacks[i - 1], stacks[i - 1 + 1], rules[i - 1]); }
    }
  }

  /** More turns than this cannot pass without a token being shifted. */
  function TurnBound(codes: nat, nsymbol: nat, limit: nat): nat { Pow(codes * nsymbol + 1, limit) }

  /** Where no nonterminal derives itself, feeding a token ends within the bound. */
  lemma AcyclicEnds(m: Meaning, T: Tables, limit: nat, stack: seq<Entry>, path: seq<nat>, consumed: seq<nat>, t: nat, fuel: nat)
    requires Consistent(m) && TablesSound(m, T) && Running(m, T, stack, path, consumed) && t < m.g.nterminal && 0 < |stack| <= limit
    requires !Cyclic(m.g) && fuel >= TurnBound(T.minReduce + T.nrule, m.g.nsymbol, limit)
    ensures Fed(T, limit, stack, t, fuel).0 != OutOfFuel
  {
    if Fed(T, limit, stack, t, fuel).0 == OutOfFuel {
      assert ValidGrammar(m.g);
      hide Consistent, TablesSound, Running, Fed, ReducesTo, Cyclic, Reductions;
      var stacks, rules := Trace(m, T, limit, stack, path, consumed, t, fuel);
      var i, j := Repeated(stacks, T.minReduce + T.nrule, m.g.nsymbol, limit);
      RepeatIsCyclic(m, stacks, rules, i, j);
    }
  }

  lemma Repeated(stacks: seq<seq<Entry>>, codes: nat, nsymbol: nat, limit: nat) returns (i: nat, j: nat)
    requires InRange(stacks, codes, nsymbol, limit) && |stacks| > TurnBound(codes, nsymbol, limit)
    ensures i < j < |stacks| && stacks[i] == stacks[j]
  {
    hide StackOk, Number, Pow;
    var numbers := seq(|stacks|, k requires 0 <= k < |stacks| => Number(stacks[k], codes, nsymbol));
    forall k | 0 <= k < |stacks| ensures 0 <= numbers[k] < TurnBound(codes, nsymbol, limit) {
      NumberBounds(stacks[k], codes, nsymbol, limit);
    }
    i, j := Pigeonhole(numbers, TurnBound(codes, nsymbol, limit));
    NumberDetermines(stacks[i], stacks[j], codes, nsymbol);
  }
}
