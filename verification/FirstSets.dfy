/** `FindFirstSets`: nullability and FIRST by two growing fixpoint loops, proved
    equal to what the derivation relation says. */
module FirstSets {
  import opened Grammars

  // ---- What the two loops compute, read off derivations ----

  ghost predicate DerivesEmpty(g: Grammar, x: Symbol) { Derives(g, [x], []) }

  ghost predicate BeginsWith(g: Grammar, a: seq<Symbol>, t: nat, rest: seq<Symbol>) {
    Derives(g, a, [Terminal(t)] + rest)
  }

  ghost predicate CanBegin(g: Grammar, a: seq<Symbol>, t: nat) {
    exists rest :: BeginsWith(g, a, t, rest)
  }

  /** The result of the analysis, indexed by symbol number: the `lambda` flags and
      the `firstset` bit sets. */
  datatype Analysis = Analysis(lambda: seq<bool>, first: seq<set<nat>>)

  predicate Sized(g: Grammar, an: Analysis) { |an.lambda| == |an.first| == g.nsymbol }

  predicate Lambda(g: Grammar, an: Analysis, x: Symbol)
    requires Sized(g, an)
  {
    x.Nonterminal? && IsNonterminalId(g, x.id) && an.lambda[x.id]
  }

  function FirstOf(g: Grammar, an: Analysis, x: Symbol): set<nat>
    requires Sized(g, an)
  {
    match x
    case Terminal(t) => {t}
    case Nonterminal(a) => if a < g.nsymbol then an.first[a] else {}
    case MultiTerminal(s) => set t | t in s
  }

  predicate AllLambda(g: Grammar, an: Analysis, w: seq<Symbol>)
    requires Sized(g, an)
  {
    forall k :: 0 <= k < |w| ==> Lambda(g, an, w[k])
  }

  /** FIRST of a sentential form: scan while symbols are nullable. */
  function FirstOfSeq(g: Grammar, an: Analysis, w: seq<Symbol>): set<nat>
    requires Sized(g, an)
  {
    if w == [] then {}
    else if Lambda(g, an, w[0]) then FirstOf(g, an, w[0]) + FirstOfSeq(g, an, w[1..])
    else FirstOf(g, an, w[0])
  }

  ghost predicate LambdaSound(g: Grammar, an: Analysis)
    requires Sized(g, an)
  {
    forall a: nat :: IsNonterminalId(g, a) && an.lambda[a] ==> DerivesEmpty(g, Nonterminal(a))
  }

  ghost predicate FirstSound(g: Grammar, an: Analysis)
    requires Sized(g, an)
  {
    forall a, t :: 0 <= a < g.nsymbol && t in an.first[a] ==> CanBegin(g, [Nonterminal(a)], t)
  }

  predicate LambdaClosed(g: Grammar, an: Analysis)
    requires Sized(g, an)
  {
    forall k :: 0 <= k < |g.rules| ==> LambdaClosedAt(g, an, g.rules[k])
  }

  predicate LambdaClosedAt(g: Grammar, an: Analysis, r: Rule)
    requires Sized(g, an)
  {
    AllLambda(g, an, r.rhs) ==> Lambda(g, an, Nonterminal(r.lhs))
  }

  predicate FirstClosed(g: Grammar, an: Analysis)
    requires Sized(g, an)
  {
    forall k :: 0 <= k < |g.rules| ==> FirstClosedAt(g, an, g.rules[k])
  }

  predicate FirstClosedAt(g: Grammar, an: Analysis, r: Rule)
    requires Sized(g, an)
  {
    FirstOfSeq(g, an, r.rhs) <= FirstOf(g, an, Nonterminal(r.lhs))
  }

  // ---- Completeness: a closed analysis misses no derivation ----

  lemma FirstOfSeqConcat(g: Grammar, an: Analysis, u: seq<Symbol>, v: seq<Symbol>)
    requires Sized(g, an)
    ensures AllLambda(g, an, u) ==> FirstOfSeq(g, an, u + v) == FirstOfSeq(g, an, u) + FirstOfSeq(g, an, v)
    ensures !AllLambda(g, an, u) ==> FirstOfSeq(g, an, u + v) == FirstOfSeq(g, an, u)
  {
    if u == [] {
      assert u + v == v;
    } else {
      assert (u + v)[1..] == u[1..] + v;
      FirstOfSeqConcat(g, an, u[1..], v);
      assert AllLambda(g, an, u) <==> Lambda(g, an, u[0]) && AllLambda(g, an, u[1..]) by {
        assert forall k :: 0 <= k < |u| - 1 ==> u[1..][k] == u[k + 1];
      }
    }
  }

  lemma {:induction false} EmptyNeedsLambda(g: Grammar, an: Analysis, n: nat, a: seq<Symbol>)
    requires ValidGrammar(g) && Sized(g, an) && LambdaClosed(g, an)
    requires DerivesIn(g, n, a, [])
    ensures AllLambda(g, an, a)
  {
    if n > 0 {
      var c :| Step(g, a, c) && DerivesIn(g, n - 1, c, []);
      var k: nat, w :| StepAt(g, a, c, k, w);
      hide Step, DerivesIn, ValidGrammar, AllLambda, StepAt;
      EmptyNeedsLambda(g, an, n - 1, c);
      StepNeedsLambda(g, an, a, c, k, w);
    }
  }

  /** A form that rewrites to nullable symbols only consists of nullable symbols. */
  lemma StepNeedsLambda(g: Grammar, an: Analysis, a: seq<Symbol>, c: seq<Symbol>, k: nat, w: seq<Symbol>)
    requires Sized(g, an) && LambdaClosed(g, an) && StepAt(g, a, c, k, w) && AllLambda(g, an, c)
    ensures AllLambda(g, an, a)
  {
    hide LambdaClosed, Lambda, Expands;
    forall j | 0 <= j < |w| ensures Lambda(g, an, w[j]) { assert c[k + j] == w[j]; }
    ExpandLambda(g, an, a[k], w);
    forall i | 0 <= i < |a| ensures Lambda(g, an, a[i]) {
      if i < k {
        assert c[i] == a[i];
      } else if i > k {
        assert c[i - 1 + |w|] == a[i];
      }
    }
  }

  lemma ExpandLambda(g: Grammar, an: Analysis, x: Symbol, w: seq<Symbol>)
    requires Sized(g, an) && LambdaClosed(g, an)
    requires Expands(g, x, w)
    ensures AllLambda(g, an, w) ==> Lambda(g, an, x)
  {
    match x
    case Nonterminal(a) =>
      var k :| 0 <= k < |g.rules| && g.rules[k] == Rule(a, w);
      assert LambdaClosedAt(g, an, g.rules[k]);
    case MultiTerminal(s) =>
      assert !Lambda(g, an, w[0]);
  }

  lemma ExpandFirst(g: Grammar, an: Analysis, x: Symbol, w: seq<Symbol>)
    requires Sized(g, an) && FirstClosed(g, an) && Expands(g, x, w)
    ensures FirstOfSeq(g, an, w) <= FirstOf(g, an, x)
  {
    match x
    case Nonterminal(a) =>
      var k :| 0 <= k < |g.rules| && g.rules[k] == Rule(a, w);
      assert FirstClosedAt(g, an, g.rules[k]);
    case MultiTerminal(s) =>
  }

  lemma {:induction false} BeginNeedsFirst(g: Grammar, an: Analysis, n: nat, a: seq<Symbol>, t: nat, rest: seq<Symbol>)
    requires ValidGrammar(g) && Sized(g, an) && LambdaClosed(g, an) && FirstClosed(g, an)
    requires DerivesIn(g, n, a, [Terminal(t)] + rest)
    ensures t in FirstOfSeq(g, an, a)
  {
    if n > 0 {
      var c :| Step(g, a, c) && DerivesIn(g, n - 1, c, [Terminal(t)] + rest);
      var k: nat, w :| StepAt(g, a, c, k, w);
      BeginNeedsFirst(g, an, n - 1, c, t, rest);
      StepShrinksFirst(g, an, a, c, k, w);
    }
  }

  /** Expanding a symbol never adds to FIRST of a closed analysis. */
  lemma StepShrinksFirst(g: Grammar, an: Analysis, a: seq<Symbol>, c: seq<Symbol>, k: nat, w: seq<Symbol>)
    requires ValidGrammar(g) && Sized(g, an) && LambdaClosed(g, an) && FirstClosed(g, an)
    requires StepAt(g, a, c, k, w)
    ensures FirstOfSeq(g, an, c) <= FirstOfSeq(g, an, a)
  {
    var p, x, s := a[..k], a[k], a[k + 1..];
    assert a == p + ([x] + s) && c == p + (w + s);
    FirstOfSeqConcat(g, an, p, [x] + s);
    FirstOfSeqConcat(g, an, p, w + s);
    FirstOfSeqConcat(g, an, w, s);
    assert ([x] + s)[1..] == s;
    ExpandFirst(g, an, x, w);
    ExpandLambda(g, an, x, w);
  }

  // ---- Soundness: what the loops record is derivable ----

  lemma {:induction false} AllLambdaDerivesEmpty(g: Grammar, an: Analysis, w: seq<Symbol>)
    requires Sized(g, an) && LambdaSound(g, an) && AllLambda(g, an, w)
    ensures Derives(g, w, [])
  {
    hide Derives;
    if w == [] {
      DerivesRefl(g, w);
    } else {
      assert Lambda(g, an, w[0]) && DerivesEmpty(g, w[0]);
      assert AllLambda(g, an, w[1..]) by {
        assert forall k :: 0 <= k < |w| - 1 ==> w[1..][k] == w[k + 1];
      }
      AllLambdaDerivesEmpty(g, an, w[1..]);
      DerivesConcat(g, [w[0]], [], w[1..], []);
      assert [w[0]] + w[1..] == w;
      assert [] + [] == w[..0];
    }
  }

  /** If every symbol before position `i` is nullable and the symbol there can begin
      with `t`, then so can the left-hand side of the rule. */
  lemma RuleBegins(g: Grammar, an: Analysis, r: Rule, i: nat, t: nat)
    requires Sized(g, an) && LambdaSound(g, an) && r in g.rules
    requires i < |r.rhs| && AllLambda(g, an, r.rhs[..i]) && CanBegin(g, [r.rhs[i]], t)
    ensures CanBegin(g, [Nonterminal(r.lhs)], t)
  {
    hide Derives;
    var p, x, s := r.rhs[..i], r.rhs[i], r.rhs[i + 1..];
    AllLambdaDerivesEmpty(g, an, p);
    BeginsThenMore(g, [x], s, t);
    EmptyThenBegins(g, p, [x] + s, t);
    assert p + ([x] + s) == r.rhs;
    var rest :| BeginsWith(g, r.rhs, t, rest);
    assert r == Rule(r.lhs, r.rhs);
    DerivesExpand(g, Nonterminal(r.lhs), r.rhs);
    DerivesTrans(g, [Nonterminal(r.lhs)], r.rhs, [Terminal(t)] + rest);
    assert BeginsWith(g, [Nonterminal(r.lhs)], t, rest);
  }

  lemma SymbolBegins(g: Grammar, an: Analysis, x: Symbol)
    requires Sized(g, an) && FirstSound(g, an)
    ensures forall t :: t in FirstOf(g, an, x) ==> CanBegin(g, [x], t)
  {
    forall t | t in FirstOf(g, an, x) ensures CanBegin(g, [x], t) {
      if !x.Nonterminal? { TokenBegins(g, an, x, t); }
    }
  }

  /** Terminals and token classes begin with themselves. */
  lemma TokenBegins(g: Grammar, an: Analysis, x: Symbol, t: nat)
    requires Sized(g, an) && !x.Nonterminal? && t in FirstOf(g, an, x)
    ensures CanBegin(g, [x], t)
  {
    assert [Terminal(t)] + [] == [Terminal(t)];
    if x.Terminal? {
      DerivesRefl(g, [x]);
    } else {
      DerivesExpand(g, x, [Terminal(t)]);
    }
    assert BeginsWith(g, [x], t, []);
  }

  // ---- The loops ----

  /** The (symbol, terminal) pairs still absent, the quantity that both loops shrink. */
  ghost function Missing(g: Grammar, first: seq<set<nat>>): set<(nat, nat)>
    requires |first| == g.nsymbol
  {
    set a, t | 0 <= a < g.nsymbol && 0 <= t < g.nterminal && t !in first[a] :: (a, t)
  }

  ghost function Unset(lambda: seq<bool>): set<nat> {
    set a | 0 <= a < |lambda| && !lambda[a]
  }

  predicate TerminalsOnly(g: Grammar, first: seq<set<nat>>) {
    forall a, t :: 0 <= a < |first| && t in first[a] ==> 0 < t < g.nterminal
  }

  /** One scan of a rule by the first loop: is every right-hand-side symbol nullable? */
  method RuleIsLambda(g: Grammar, an: Analysis, r: Rule) returns (all: bool)
    requires Sized(g, an)
    ensures all <==> AllLambda(g, an, r.rhs)
  {
    var i := 0;
    while i < |r.rhs|
      invariant 0 <= i <= |r.rhs|
      invariant AllLambda(g, an, r.rhs[..i])
    {
      if !Lambda(g, an, r.rhs[i]) { return false; }
      assert r.rhs[..i + 1] == r.rhs[..i] + [r.rhs[i]];
      i := i + 1;
    }
    assert r.rhs[..i] == r.rhs;
    return true;
  }

  method FindLambdas(g: Grammar) returns (an: Analysis)
    requires ValidGrammar(g)
    ensures Sized(g, an) && LambdaSound(g, an) && LambdaClosed(g, an)
    ensures an.first == seq(g.nsymbol, _ => {})
  {
    var none := seq(g.nsymbol, (_: int) => {});
    an := Analysis(seq(g.nsymbol, _ => false), none);
    var progress := true;
    while progress
      invariant Sized(g, an) && an.first == none
      invariant LambdaSound(g, an)
      invariant !progress ==> LambdaClosed(g, an)
      decreases Unset(an.lambda), progress
    {
      progress := false;
      ghost var before := an;
      for k := 0 to |g.rules|
        invariant Sized(g, an) && an.first == none
        invariant LambdaSound(g, an)
        invariant Unset(an.lambda) <= Unset(before.lambda)
        invariant progress ==> Unset(an.lambda) < Unset(before.lambda)
        invariant !progress ==> an == before
        invariant !progress ==> forall j :: 0 <= j < k ==> LambdaClosedAt(g, an, g.rules[j])
      {
        var r := g.rules[k];
        assert ValidRule(g, r);
        if !an.lambda[r.lhs] {
          var all := RuleIsLambda(g, an, r);
          if all {
            RuleEmpty(g, an, r);
            assert r.lhs in Unset(an.lambda);
            an := an.(lambda := an.lambda[r.lhs := true]);
            progress := true;
          }
        }
      }
    }
  }

  lemma RuleEmpty(g: Grammar, an: Analysis, r: Rule)
    requires Sized(g, an) && LambdaSound(g, an) && r in g.rules && AllLambda(g, an, r.rhs)
    ensures DerivesEmpty(g, Nonterminal(r.lhs))
  {
    AllLambdaDerivesEmpty(g, an, r.rhs);
    assert r == Rule(r.lhs, r.rhs);
    DerivesExpand(g, Nonterminal(r.lhs), r.rhs);
    DerivesTrans(g, [Nonterminal(r.lhs)], r.rhs, []);
  }

  predicate Grown(an: Analysis, an': Analysis) {
    && an'.lambda == an.lambda && |an'.first| == |an.first|
    && forall a :: 0 <= a < |an.first| ==> an.first[a] <= an'.first[a]
  }

  /** One rule of the second loop.  The scan stops at the first terminal or
      non-nullable symbol; a self-reference contributes nothing. */
  method ScanRule(g: Grammar, an: Analysis, r: Rule) returns (an': Analysis, changed: bool)
    requires ValidGrammar(g) && Sized(g, an) && LambdaSound(g, an) && r in g.rules && ValidRule(g, r)
    requires FirstSound(g, an) && TerminalsOnly(g, an.first)
    ensures Sized(g, an') && Grown(an, an')
    ensures FirstSound(g, an') && TerminalsOnly(g, an'.first)
    ensures if changed then Missing(g, an'.first) < Missing(g, an.first) else an' == an && FirstClosedAt(g, an, r)
  {
    hide FirstSound, LambdaSound, Missing, TerminalsOnly;
    an', changed := an, false;
    var i := 0;
    while i < |r.rhs|
      invariant 0 <= i <= |r.rhs|
      invariant Sized(g, an') && Grown(an, an')
      invariant FirstSound(g, an') && TerminalsOnly(g, an'.first)
      invariant AllLambda(g, an, r.rhs[..i])
      invariant if changed then Missing(g, an'.first) < Missing(g, an.first) else an' == an
      invariant !changed ==> FirstOfSeq(g, an, r.rhs[..i]) <= FirstOf(g, an, Nonterminal(r.lhs))
    {
      var x := r.rhs[i];
      assert ValidSymbol(g, x);
      var add := if x == Nonterminal(r.lhs) then {} else FirstOf(g, an', x);
      PrefixFirst(g, an, r.rhs, i);
      if !(add <= an'.first[r.lhs]) {
        SameLambda(g, an, an', r.rhs[..i]);
        GrowStep(g, an', r, i, add);
        an', changed := an'.(first := an'.first[r.lhs := an'.first[r.lhs] + add]), true;
      }
      if !Lambda(g, an, x) {
        WholeFirst(g, an, r.rhs, i);
        return;
      }
      assert r.rhs[..i + 1] == r.rhs[..i] + [x];
      i := i + 1;
    }
    assert r.rhs[..i] == r.rhs;
  }

  lemma PrefixFirst(g: Grammar, an: Analysis, w: seq<Symbol>, i: nat)
    requires Sized(g, an) && i < |w| && AllLambda(g, an, w[..i])
    ensures FirstOfSeq(g, an, w[..i + 1]) == FirstOfSeq(g, an, w[..i]) + FirstOf(g, an, w[i])
  {
    assert w[..i + 1] == w[..i] + [w[i]];
    FirstOfSeqConcat(g, an, w[..i], [w[i]]);
  }

  lemma WholeFirst(g: Grammar, an: Analysis, w: seq<Symbol>, i: nat)
    requires Sized(g, an) && i < |w| && !Lambda(g, an, w[i])
    ensures FirstOfSeq(g, an, w) == FirstOfSeq(g, an, w[..i + 1])
  {
    assert w == w[..i + 1] + w[i + 1..];
    assert !Lambda(g, an, w[..i + 1][i]);
    FirstOfSeqConcat(g, an, w[..i + 1], w[i + 1..]);
  }

  lemma SameLambda(g: Grammar, an: Analysis, an': Analysis, w: seq<Symbol>)
    requires Sized(g, an) && Sized(g, an') && an.lambda == an'.lambda
    ensures AllLambda(g, an, w) == AllLambda(g, an', w)
    ensures LambdaSound(g, an) == LambdaSound(g, an')
  {
  }

  /** Adding a non-empty batch of new terminals to a first set keeps it sound and shrinks what is missing. */
  lemma GrowStep(g: Grammar, an: Analysis, r: Rule, i: nat, add: set<nat>)
    requires Sized(g, an) && LambdaSound(g, an) && FirstSound(g, an) && TerminalsOnly(g, an.first)
    requires r in g.rules && ValidRule(g, r) && !(add <= an.first[r.lhs])
    requires i < |r.rhs| && AllLambda(g, an, r.rhs[..i]) && add <= FirstOf(g, an, r.rhs[i])
    ensures var an' := an.(first := an.first[r.lhs := an.first[r.lhs] + add]);
      Sized(g, an') && FirstSound(g, an') && TerminalsOnly(g, an'.first) && Missing(g, an'.first) < Missing(g, an.first)
  {
    assert ValidSymbol(g, r.rhs[i]);
    GrowMissing(g, an, r.lhs, add);
    GrowSound(g, an, r, i, add);
  }

  lemma GrowMissing(g: Grammar, an: Analysis, a: nat, add: set<nat>)
    requires Sized(g, an) && a < g.nsymbol && !(add <= an.first[a])
    requires forall t :: t in add ==> 0 < t < g.nterminal
    ensures Missing(g, an.first[a := an.first[a] + add]) < Missing(g, an.first)
  {
    var t :| t in add && t !in an.first[a];
    var m, m' := Missing(g, an.first), Missing(g, an.first[a := an.first[a] + add]);
    assert (a, t) in m && (a, t) !in m';
    assert m' <= m;
  }

  lemma GrowSound(g: Grammar, an: Analysis, r: Rule, i: nat, add: set<nat>)
    requires Sized(g, an) && LambdaSound(g, an) && FirstSound(g, an) && r in g.rules && r.lhs < g.nsymbol
    requires i < |r.rhs| && AllLambda(g, an, r.rhs[..i]) && add <= FirstOf(g, an, r.rhs[i])
    ensures FirstSound(g, an.(first := an.first[r.lhs := an.first[r.lhs] + add]))
  {
    SymbolBegins(g, an, r.rhs[i]);
    forall t | t in add ensures CanBegin(g, [Nonterminal(r.lhs)], t) {
      RuleBegins(g, an, r, i, t);
    }
  }

  lemma GrownKeepsLambda(g: Grammar, an: Analysis, an': Analysis)
    requires Sized(g, an) && Sized(g, an') && an.lambda == an'.lambda
    ensures LambdaSound(g, an) == LambdaSound(g, an')
    ensures LambdaClosed(g, an) == LambdaClosed(g, an')
  {
    assert forall r: Rule :: LambdaClosedAt(g, an, r) == LambdaClosedAt(g, an', r) by {
      forall r: Rule ensures LambdaClosedAt(g, an, r) == LambdaClosedAt(g, an', r) {
        assert forall k :: 0 <= k < |r.rhs| ==> Lambda(g, an, r.rhs[k]) == Lambda(g, an', r.rhs[k]);
      }
    }
  }

  /** The exactness of an analysis: the flags and sets are precisely what derivations allow. */
  ghost predicate Exact(g: Grammar, an: Analysis)
    requires Sized(g, an)
  {
    && (forall a: nat :: IsNonterminalId(g, a) ==> (an.lambda[a] <==> DerivesEmpty(g, Nonterminal(a))))
    && (forall a: nat, t: nat :: IsNonterminalId(g, a) ==> (t in an.first[a] <==> CanBegin(g, [Nonterminal(a)], t)))
  }

  /** `FindFirstSets`: terminates, and a nonterminal is flagged nullable iff it derives
      the empty string, and `t` is in its first set iff it derives a form beginning with `t`. */
  method FindFirstSets(g: Grammar) returns (an: Analysis)
    requires ValidGrammar(g)
    ensures Sized(g, an) && Exact(g, an)
    ensures LambdaClosed(g, an) && FirstClosed(g, an) && TerminalsOnly(g, an.first)
  {
    an := FindLambdas(g);
    var progress := true;
    while progress
      invariant Sized(g, an) && LambdaSound(g, an) && LambdaClosed(g, an)
      invariant FirstSound(g, an) && TerminalsOnly(g, an.first)
      invariant !progress ==> FirstClosed(g, an)
      decreases Missing(g, an.first), progress
    {
      progress := false;
      ghost var before := an;
      for k := 0 to |g.rules|
        invariant Sized(g, an) && Grown(before, an)
        invariant FirstSound(g, an) && TerminalsOnly(g, an.first)
        invariant if progress then Missing(g, an.first) < Missing(g, before.first) else an == before
        invariant !progress ==> forall j :: 0 <= j < k ==> FirstClosedAt(g, an, g.rules[j])
      {
        GrownKeepsLambda(g, before, an);
        var changed;
        an, changed := ScanRule(g, an, g.rules[k]);
        progress := progress || changed;
      }
      GrownKeepsLambda(g, before, an);
    }
    ClosedIsExact(g, an);
  }

  /** A sound and closed analysis is exact: no derivation is missed. */
  lemma ClosedIsExact(g: Grammar, an: Analysis)
    requires ValidGrammar(g) && Sized(g, an)
    requires LambdaSound(g, an) && LambdaClosed(g, an) && FirstSound(g, an) && FirstClosed(g, an)
    ensures Exact(g, an)
  {
    forall a: nat | IsNonterminalId(g, a) && DerivesEmpty(g, Nonterminal(a)) ensures an.lambda[a] {
      var n :| DerivesIn(g, n, [Nonterminal(a)], []);
      EmptyNeedsLambda(g, an, n, [Nonterminal(a)]);
      assert Lambda(g, an, [Nonterminal(a)][0]);
    }
    forall a: nat, t: nat | IsNonterminalId(g, a) && CanBegin(g, [Nonterminal(a)], t) ensures t in an.first[a] {
      var rest :| BeginsWith(g, [Nonterminal(a)], t, rest);
      var n :| DerivesIn(g, n, [Nonterminal(a)], [Terminal(t)] + rest);
      BeginNeedsFirst(g, an, n, [Nonterminal(a)], t, rest);
    }
  }

  /** FIRST of any sentential form is exact as well; `Configlist_closure` relies on it. */
  lemma FirstOfSeqExact(g: Grammar, an: Analysis, w: seq<Symbol>, t: nat)
    requires ValidGrammar(g) && Sized(g, an) && Exact(g, an)
    requires LambdaClosed(g, an) && FirstClosed(g, an)
    requires forall k :: 0 <= k < |w| ==> ValidSymbol(g, w[k])
    ensures t in FirstOfSeq(g, an, w) <==> CanBegin(g, w, t)
  {
    hide LambdaClosed, FirstClosed, Exact, ValidGrammar;
    FirstOfSeqSound(g, an, w, t);
    if CanBegin(g, w, t) {
      var rest :| BeginsWith(g, w, t, rest);
      var n :| DerivesIn(g, n, w, [Terminal(t)] + rest);
      BeginNeedsFirst(g, an, n, w, t, rest);
    }
  }

  lemma AllLambdaExact(g: Grammar, an: Analysis, w: seq<Symbol>)
    requires ValidGrammar(g) && Sized(g, an) && Exact(g, an) && LambdaClosed(g, an)
    ensures AllLambda(g, an, w) <==> Derives(g, w, [])
  {
    if AllLambda(g, an, w) {
      AllLambdaDerivesEmpty(g, an, w);
    }
    if Derives(g, w, []) {
      var n :| DerivesIn(g, n, w, []);
      EmptyNeedsLambda(g, an, n, w);
    }
  }

  lemma {:induction false} FirstOfSeqSound(g: Grammar, an: Analysis, w: seq<Symbol>, t: nat)
    requires Sized(g, an) && Exact(g, an)
    requires forall k :: 0 <= k < |w| ==> ValidSymbol(g, w[k])
    ensures t in FirstOfSeq(g, an, w) ==> CanBegin(g, w, t)
  {
    if t in FirstOfSeq(g, an, w) {
      var x, s := w[0], w[1..];
      assert w == [x] + s && ValidSymbol(g, x);
      assert forall k :: 0 <= k < |s| ==> s[k] == w[k + 1];
      if t in FirstOf(g, an, x) {
        SymbolCanBegin(g, an, x, t);
        BeginsThenMore(g, [x], s, t);
      } else {
        FirstOfSeqSound(g, an, s, t);
        EmptyThenBegins(g, [x], s, t);
      }
    }
  }

  lemma BeginsThenMore(g: Grammar, a: seq<Symbol>, s: seq<Symbol>, t: nat)
    requires CanBegin(g, a, t)
    ensures CanBegin(g, a + s, t)
  {
    hide Derives;
    var rest :| BeginsWith(g, a, t, rest);
    DerivesRefl(g, s);
    DerivesConcat(g, a, [Terminal(t)] + rest, s, s);
    assert [Terminal(t)] + rest + s == [Terminal(t)] + (rest + s);
    assert BeginsWith(g, a + s, t, rest + s);
  }

  lemma EmptyThenBegins(g: Grammar, a: seq<Symbol>, s: seq<Symbol>, t: nat)
    requires Derives(g, a, []) && CanBegin(g, s, t)
    ensures CanBegin(g, a + s, t)
  {
    hide Derives;
    var rest :| BeginsWith(g, s, t, rest);
    DerivesConcat(g, a, [], s, [Terminal(t)] + rest);
    assert [] + ([Terminal(t)] + rest) == [Terminal(t)] + rest;
    assert BeginsWith(g, a + s, t, rest);
  }

  lemma SymbolCanBegin(g: Grammar, an: Analysis, x: Symbol, t: nat)
    requires Sized(g, an) && Exact(g, an) && ValidSymbol(g, x) && t in FirstOf(g, an, x)
    ensures CanBegin(g, [x], t)
  {
    if !x.Nonterminal? { TokenBegins(g, an, x, t); }
  }
}
