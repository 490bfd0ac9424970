/** Parse trees: every derivation of a token string has one. */
module Trees {
  import opened Grammars
  import opened FirstSets
  import opened StackInvariant

  datatype Tree = Leaf(t: nat) | Node(rule: nat, children: seq<Tree>)

  /** The tree derives its yield from the symbol. */
  predicate TreeOf(g: Grammar, x: Symbol, tree: Tree)
    decreases tree
  {
    match tree
    case Leaf(t) => !x.Nonterminal? && t < g.nterminal && Covers(g, x, t)
    case Node(r, cs) =>
      && r < |g.rules| && x == Nonterminal(g.rules[r].lhs) && |cs| == |g.rules[r].rhs|
      && forall i :: 0 <= i < |cs| ==> TreeOf(g, g.rules[r].rhs[i], cs[i])
  }

  predicate Forest(g: Grammar, w: seq<Symbol>, ts: seq<Tree>) {
    |ts| == |w| && forall i :: 0 <= i < |ts| ==> TreeOf(g, w[i], ts[i])
  }

  function Yield(tree: Tree): seq<nat>
    decreases tree, 0
  {
    match tree
    case Leaf(t) => [t]
    case Node(_, cs) => Yields(cs)
  }

  function Yields(ts: seq<Tree>): seq<nat>
    decreases ts, 0
  {
    if ts == [] then [] else Yield(ts[0]) + Yields(ts[1..])
  }

  /** The number of nodes and leaves: how many shifts and reduces parsing takes. */
  function Size(tree: Tree): nat
    decreases tree, 0
  {
    match tree
    case Leaf(_) => 1
    case Node(_, cs) => 1 + Sizes(cs)
  }

  function Sizes(ts: seq<Tree>): nat
    decreases ts, 0
  {
    if ts == [] then 0 else Size(ts[0]) + Sizes(ts[1..])
  }

  lemma {:induction false} YieldsConcat(a: seq<Tree>, b: seq<Tree>)
    ensures Yields(a + b) == Yields(a) + Yields(b)
  {
    if a == [] {
      assert a + b == b;
    } else {
      assert (a + b)[1..] == a[1..] + b;
      YieldsConcat(a[1..], b);
    }
  }

  // ---- From derivations to trees ----

  function Leaves(u: seq<nat>): (ts: seq<Tree>)
    ensures |ts| == |u| && forall i :: 0 <= i < |u| ==> ts[i] == Leaf(u[i])
  {
    seq(|u|, i requires 0 <= i < |u| => Leaf(u[i]))
  }

  lemma {:induction false} LeavesYield(u: seq<nat>)
    ensures Yields(Leaves(u)) == u
  {
    if u != [] {
      assert Leaves(u)[1..] == Leaves(u[1..]);
      LeavesYield(u[1..]);
      assert u == [u[0]] + u[1..];
    }
  }

  /** Undoing one step of a derivation. */
  lemma StepTree(g: Grammar, a: seq<Symbol>, c: seq<Symbol>, k: nat, w: seq<Symbol>, ts: seq<Tree>) returns (us: seq<Tree>)
    requires ValidGrammar(g) && StepAt(g, a, c, k, w) && Forest(g, c, ts)
    ensures Forest(g, a, us) && Yields(us) == Yields(ts)
  {
    var left, mid, right := ts[..k], ts[k..k + |w|], ts[k + |w|..];
    assert ts == left + mid + right;
    assert forall i :: 0 <= i < |w| ==> c[k + i] == w[i];
    assert Forest(g, w, mid);
    var tree := ExpandTree(g, a[k], w, mid);
    us := left + [tree] + right;
    YieldsConcat(left, mid);
    YieldsConcat(left + mid, right);
    YieldsConcat(left, [tree]);
    YieldsConcat(left + [tree], right);
    assert Yields([tree]) == Yield(tree) + Yields([]) == Yields(mid);
    hide TreeOf, Yields, StepAt;
    Replanted(g, a, c, k, w, ts, tree);
  }

  lemma Replanted(g: Grammar, a: seq<Symbol>, c: seq<Symbol>, k: nat, w: seq<Symbol>, ts: seq<Tree>, tree: Tree)
    requires k < |a| && c == a[..k] + w + a[k + 1..] && Forest(g, c, ts) && TreeOf(g, a[k], tree)
    ensures Forest(g, a, ts[..k] + [tree] + ts[k + |w|..])
  {
    hide TreeOf;
    var us := ts[..k] + [tree] + ts[k + |w|..];
    forall i | 0 <= i < |us| ensures TreeOf(g, a[i], us[i]) {
      if i < k {
        assert c[i] == a[i] && us[i] == ts[i];
      } else if i > k {
        assert c[i - 1 + |w|] == a[i] && us[i] == ts[i - 1 + |w|];
      }
    }
  }

  lemma ExpandTree(g: Grammar, x: Symbol, w: seq<Symbol>, ts: seq<Tree>) returns (tree: Tree)
    requires ValidGrammar(g) && Expands(g, x, w) && Forest(g, w, ts)
    ensures TreeOf(g, x, tree) && Yield(tree) == Yields(ts)
  {
    match x
    case Nonterminal(a) =>
      var r :| 0 <= r < |g.rules| && g.rules[r] == Rule(a, w);
      tree := Node(r, ts);
    case MultiTerminal(s) =>
      var t :| t in s && w == [Terminal(t)];
      tree := ts[0];
      assert TreeOf(g, w[0], ts[0]);
      assert ts[1..] == [] && Yields(ts) == Yield(ts[0]) + Yields([]);
  }

  lemma {:induction false} ForestOf(g: Grammar, n: nat, a: seq<Symbol>, u: seq<nat>) returns (ts: seq<Tree>)
    requires ValidGrammar(g) && DerivesIn(g, n, a, Word(u)) && forall i :: 0 <= i < |u| ==> u[i] < g.nterminal
    ensures Forest(g, a, ts) && Yields(ts) == u
  {
    if n == 0 {
      ts := Leaves(u);
      LeavesYield(u);
    } else {
      var c :| Step(g, a, c) && DerivesIn(g, n - 1, c, Word(u));
      var k: nat, w :| StepAt(g, a, c, k, w);
      hide Step, StepAt, Forest, Yields;
      var us := ForestOf(g, n - 1, c, u);
      ts := StepTree(g, a, c, k, w, us);
    }
  }

  /** A tree of the start symbol whose yield is the token string. */
  predicate ParseOf(g: Grammar, tree: Tree, tokens: seq<nat>) {
    TreeOf(g, Nonterminal(g.start), tree) && Yield(tree) == tokens
  }

  /** Every sentence has a parse tree. */
  lemma SentenceHasTree(g: Grammar, tokens: seq<nat>) returns (tree: Tree)
    requires ValidGrammar(g) && Sentence(g, tokens) && forall i :: 0 <= i < |tokens| ==> tokens[i] < g.nterminal
    ensures ParseOf(g, tree, tokens)
  {
    var n: nat :| DerivesIn(g, n, [Nonterminal(g.start)], Word(tokens));
    var ts := ForestOf(g, n, [Nonterminal(g.start)], tokens);
    tree := ts[0];
    assert TreeOf(g, [Nonterminal(g.start)][0], ts[0]);
    assert ts[1..] == [] && Yields(ts) == Yield(ts[0]) + Yields([]);
  }

  // ---- FIRST and nullability, read off trees ----

  lemma {:induction false} ForestTokens(g: Grammar, w: seq<Symbol>, ts: seq<Tree>)
    requires Forest(g, w, ts)
    ensures forall i :: 0 <= i < |Yields(ts)| ==> Yields(ts)[i] < g.nterminal
    decreases ts, 0
  {
    if ts != [] {
      TreeTokens(g, w[0], ts[0]);
      assert Forest(g, w[1..], ts[1..]) by { ForestTail(g, w, ts); }
      ForestTokens(g, w[1..], ts[1..]);
    }
  }

  lemma {:induction false} TreeTokens(g: Grammar, x: Symbol, tree: Tree)
    requires TreeOf(g, x, tree)
    ensures forall i :: 0 <= i < |Yield(tree)| ==> Yield(tree)[i] < g.nterminal
    decreases tree, 0
  {
    if tree.Node? { ForestTokens(g, g.rules[tree.rule].rhs, tree.children); }
  }

  lemma ForestTail(g: Grammar, w: seq<Symbol>, ts: seq<Tree>)
    requires Forest(g, w, ts) && ts != []
    ensures TreeOf(g, w[0], ts[0]) && Forest(g, w[1..], ts[1..])
  {
    hide TreeOf;
    forall i | 0 <= i < |ts[1..]| ensures TreeOf(g, w[1..][i], ts[1..][i]) { assert TreeOf(g, w[i + 1], ts[i + 1]); }
  }

  /** A forest without tokens derives from nullable symbols; otherwise its first token is in FIRST. */
  lemma {:induction false} ForestBegins(g: Grammar, an: Analysis, w: seq<Symbol>, ts: seq<Tree>)
    requires ValidGrammar(g) && Sized(g, an) && LambdaClosed(g, an) && FirstClosed(g, an) && Forest(g, w, ts)
    ensures Yields(ts) == [] ==> AllLambda(g, an, w)
    ensures Yields(ts) != [] ==> Yields(ts)[0] in FirstOfSeq(g, an, w)
    decreases ts, 1
  {
    if ts != [] {
      ForestTail(g, w, ts);
      TreeBegins(g, an, w[0], ts[0]);
      ForestBegins(g, an, w[1..], ts[1..]);
      assert w == [w[0]] + w[1..];
      hide Forest, TreeOf, FirstClosed, LambdaClosed, Yield;
    }
  }

  lemma {:induction false} TreeBegins(g: Grammar, an: Analysis, x: Symbol, tree: Tree)
    requires ValidGrammar(g) && Sized(g, an) && LambdaClosed(g, an) && FirstClosed(g, an) && TreeOf(g, x, tree)
    ensures Yield(tree) == [] ==> Lambda(g, an, x)
    ensures Yield(tree) != [] ==> Yield(tree)[0] in FirstOf(g, an, x)
    decreases tree, 1
  {
    if tree.Node? {
      var r := g.rules[tree.rule];
      ForestBegins(g, an, r.rhs, tree.children);
      assert LambdaClosedAt(g, an, r) && FirstClosedAt(g, an, r) && ValidRule(g, r);
      hide TreeOf, FirstOfSeq, AllLambda;
    }
  }
}
