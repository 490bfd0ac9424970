/** Context-free grammars as the parser generator sees them, and the derivation
    relation that every later result is measured against. */
module Grammars {

  /** A symbol.  A `MultiTerminal` is a `%token_class` or `A|B` alternative; two of
      them are the same symbol exactly when they list the same terminals, which is
      structural equality here. */
  datatype Symbol =
    | Terminal(id: nat)
    | Nonterminal(id: nat)
    | MultiTerminal(subs: seq<nat>)

  datatype Rule = Rule(lhs: nat, rhs: seq<Symbol>)

  /** Terminals are numbered `0..nterminal`, nonterminals `nterminal..nsymbol`.
      Terminal 0 is the end-of-input marker. */
  datatype Grammar = Grammar(nterminal: nat, nsymbol: nat, rules: seq<Rule>, start: nat)

  predicate IsNonterminalId(g: Grammar, a: nat) { g.nterminal <= a < g.nsymbol }

  predicate ValidSymbol(g: Grammar, x: Symbol) {
    match x
    case Terminal(t) => 0 < t < g.nterminal
    case Nonterminal(a) => IsNonterminalId(g, a)
    case MultiTerminal(s) => forall k :: 0 <= k < |s| ==> 0 < s[k] < g.nterminal
  }

  predicate ValidRule(g: Grammar, r: Rule) {
    IsNonterminalId(g, r.lhs) && forall k :: 0 <= k < |r.rhs| ==> ValidSymbol(g, r.rhs[k])
  }

  /** What reading a grammar file guarantees: every left-hand side is a nonterminal
      and the end marker `$` never occurs in a rule. */
  predicate ValidGrammar(g: Grammar) {
    && 0 < g.nterminal
    && IsNonterminalId(g, g.start)
    && forall k :: 0 <= k < |g.rules| ==> ValidRule(g, g.rules[k])
  }

  /** One expansion of one symbol. */
  ghost predicate Expands(g: Grammar, x: Symbol, w: seq<Symbol>) {
    match x
    case Terminal(_) => false
    case Nonterminal(a) => Rule(a, w) in g.rules
    case MultiTerminal(s) => exists t :: t in s && w == [Terminal(t)]
  }

  ghost predicate StepAt(g: Grammar, a: seq<Symbol>, b: seq<Symbol>, k: nat, w: seq<Symbol>) {
    k < |a| && Expands(g, a[k], w) && b == a[..k] + w + a[k + 1..]
  }

  ghost predicate Step(g: Grammar, a: seq<Symbol>, b: seq<Symbol>) {
    exists k: nat, w :: StepAt(g, a, b, k, w)
  }

  /** `a` rewrites to `b` in exactly `n` steps. */
  ghost predicate DerivesIn(g: Grammar, n: nat, a: seq<Symbol>, b: seq<Symbol>) {
    if n == 0 then a == b else exists c :: Step(g, a, c) && DerivesIn(g, n - 1, c, b)
  }

  ghost predicate Derives(g: Grammar, a: seq<Symbol>, b: seq<Symbol>) {
    exists n: nat :: DerivesIn(g, n, a, b)
  }

  lemma DerivesRefl(g: Grammar, a: seq<Symbol>)
    ensures Derives(g, a, a)
  {
    assert DerivesIn(g, 0, a, a);
  }

  lemma DerivesStep(g: Grammar, a: seq<Symbol>, b: seq<Symbol>)
    requires Step(g, a, b)
    ensures Derives(g, a, b)
  {
    assert DerivesIn(g, 0, b, b);
    assert DerivesIn(g, 1, a, b);
  }

  lemma {:induction false} DerivesInTrans(g: Grammar, n: nat, m: nat, a: seq<Symbol>, b: seq<Symbol>, c: seq<Symbol>)
    requires DerivesIn(g, n, a, b) && DerivesIn(g, m, b, c)
    ensures DerivesIn(g, n + m, a, c)
  {
    if n > 0 {
      var d :| Step(g, a, d) && DerivesIn(g, n - 1, d, b);
      DerivesInTrans(g, n - 1, m, d, b, c);
    }
  }

  lemma DerivesTrans(g: Grammar, a: seq<Symbol>, b: seq<Symbol>, c: seq<Symbol>)
    requires Derives(g, a, b) && Derives(g, b, c)
    ensures Derives(g, a, c)
  {
    var n :| DerivesIn(g, n, a, b);
    var m :| DerivesIn(g, m, b, c);
    DerivesInTrans(g, n, m, a, b, c);
  }

  lemma StepInContext(g: Grammar, p: seq<Symbol>, a: seq<Symbol>, b: seq<Symbol>, s: seq<Symbol>)
    requires Step(g, a, b)
    ensures Step(g, p + a + s, p + b + s)
  {
    var k: nat, w :| StepAt(g, a, b, k, w);
    var x := p + a + s;
    assert x[..|p| + k] == p + a[..k];
    assert x[|p| + k + 1..] == a[k + 1..] + s;
    assert p + b + s == x[..|p| + k] + w + x[|p| + k + 1..];
    assert StepAt(g, x, p + b + s, |p| + k, w);
  }

  lemma {:induction false} DerivesInContext(g: Grammar, n: nat, p: seq<Symbol>, a: seq<Symbol>, b: seq<Symbol>, s: seq<Symbol>)
    requires DerivesIn(g, n, a, b)
    ensures DerivesIn(g, n, p + a + s, p + b + s)
  {
    if n > 0 {
      var c :| Step(g, a, c) && DerivesIn(g, n - 1, c, b);
      StepInContext(g, p, a, c, s);
      DerivesInContext(g, n - 1, p, c, b, s);
    }
  }

  /** Derivations may be carried out inside any surrounding sentential form. */
  lemma DerivesContext(g: Grammar, p: seq<Symbol>, a: seq<Symbol>, b: seq<Symbol>, s: seq<Symbol>)
    requires Derives(g, a, b)
    ensures Derives(g, p + a + s, p + b + s)
  {
    var n :| DerivesIn(g, n, a, b);
    DerivesInContext(g, n, p, a, b, s);
  }

  lemma DerivesConcat(g: Grammar, a: seq<Symbol>, a': seq<Symbol>, b: seq<Symbol>, b': seq<Symbol>)
    requires Derives(g, a, a') && Derives(g, b, b')
    ensures Derives(g, a + b, a' + b')
  {
    hide Derives;
    DerivesContext(g, [], a, a', b);
    DerivesContext(g, a', b, b', []);
    assert [] + a + b == a + b && [] + a' + b == a' + b;
    assert a' + b + [] == a' + b && a' + b' + [] == a' + b';
    DerivesTrans(g, a + b, a' + b, a' + b');
  }

  lemma DerivesExpand(g: Grammar, x: Symbol, w: seq<Symbol>)
    requires Expands(g, x, w)
    ensures Derives(g, [x], w)
  {
    assert [x][..0] + w + [x][1..] == w;
    assert StepAt(g, [x], w, 0, w);
    DerivesStep(g, [x], w);
  }

  /** The terminal string spelled by token numbers. */
  function Word(ts: seq<nat>): (w: seq<Symbol>)
    ensures |w| == |ts|
  {
    seq(|ts|, i requires 0 <= i < |ts| => Terminal(ts[i]))
  }

  /** A token string is a sentence of the grammar. */
  ghost predicate Sentence(g: Grammar, ts: seq<nat>) {
    Derives(g, [Nonterminal(g.start)], Word(ts))
  }
}
