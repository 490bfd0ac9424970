/** Without conflicts every sentence is accepted: the parser follows the parse tree. */
module Completeness {
  import opened Wrappers
  import opened Grammars
  import opened FirstSets
  import opened Closures
  import opened Automata
  import opened StackInvariant
  import opened Trees
  import opened Driver
  import opened Actions
  import opened Compress
  import opened Lookaheads
  import opened ActionLists
  import opened TableGen
  import opened Machine

  // ---- Follow sets reach the configurations of a parse ----

  /** Token `t` may follow configuration `x` of state `k`. */
  ghost predicate Follows(m: Analysed, k: nat, x: Item, t: nat) {
    exists c: nat :: c < |m.cfgs| && c < |m.fws| && m.cfgs[c] == Config(k, x) && t in m.fws[c]
  }

  ghost predicate Holds(m: Analysed, k: nat, x: Item) { k < |m.states| && x in m.states[k].closed.items }

  /** Everything known about an analysed grammar whose follow sets are closed. */
  ghost predicate WellAnalysed(m: Analysed) {
    && Wf(m) && FollowClosed(m.g, m.states, m.cfgs, m.fws) && LambdaClosed(m.g, m.an) && FirstClosed(m.g, m.an)
  }

  lemma ConfigOf(m: Analysed, k: nat, x: Item) returns (c: nat)
    requires Wf(m) && Holds(m, k, x)
    ensures c < |m.cfgs| && m.cfgs[c] == Config(k, x)
  {
    hide IsAutomaton, ValidGrammar, NoStartOnRhs;
    assert Config(k, x) in m.cfgs;
    c :| 0 <= c < |m.cfgs| && m.cfgs[c] == Config(k, x);
  }

  /** Follow sets pass from one configuration to another. */
  lemma FollowsPass(m: Analysed, a: Config, b: Config, t: nat)
    requires WellAnalysed(m) && a.state < |m.states| && Holds(m, b.state, b.item) && Follows(m, a.state, a.item, t) && Propagates(m.g, m.states, a, b)
    ensures Follows(m, b.state, b.item, t)
  {
    var i: nat :| i < |m.cfgs| && i < |m.fws| && m.cfgs[i] == a && t in m.fws[i];
    var j := ConfigOf(m, b.state, b.item);
    hide Wf, Propagates;
    assert Linked2(m.g, m.states, m.cfgs, i, j);
  }

  lemma ItemFacts(m: Analysed, k: nat, x: Item)
    requires Wf(m) && Holds(m, k, x)
    ensures ValidItem(m.g, x) && IsClosure(m.g, m.an, m.states[k].basis, Seed(k), m.states[k].closed)
    ensures x in m.states[k].closed.seeds
  {
    assert StateOk(m.g, m.an, m.states[k], k);
    var items := m.states[k].closed.items;
    var i :| 0 <= i < |items| && items[i] == x;
    assert ValidItem(m.g, items[i]);
    assert x in Members(items);
  }

  /** A configuration that is brought in is followed by what comes behind its parent's nonterminal. */
  lemma SpawnFollows(m: Analysed, k: nat, y: Item, x: Item, t: nat)
    requires WellAnalysed(m) && Holds(m, k, y) && Spawns(m.g, y, x) && CanFollow(m, k, y, t)
    ensures Holds(m, k, x) && Follows(m, k, x, t)
  {
    ItemFacts(m, k, y);
    var st := m.states[k];
    SpawnInClosure(m.g, st.basis, y, x);
    ItemFacts(m, k, x);
    if t in FirstOfSeq(m.g, m.an, Rest(m.g, y)) {
      assert Contributes(m.g, m.an, y, x, t);
      assert SeedExact(m.g, m.an, st.basis, Seed(k), st.closed.items, x, st.closed.seeds[x]);
      SeedFollows(m, k, x, t);
    } else {
      assert (y, x) in st.closed.links;
      FollowsPass(m, Config(k, y), Config(k, x), t);
    }
  }

  lemma SeedFollows(m: Analysed, k: nat, x: Item, t: nat)
    requires WellAnalysed(m) && Holds(m, k, x) && x in m.states[k].closed.seeds && t in m.states[k].closed.seeds[x]
    ensures Follows(m, k, x, t)
  {
    var c := ConfigOf(m, k, x);
    hide Wf;
    assert SeededAt(m.states, m.cfgs[c], m.fws[c]);
  }

  /** Token `t` may come after the symbol behind the dot of `y`. */
  ghost predicate CanFollow(m: Analysed, k: nat, y: Item, t: nat)
    requires Sized(m.g, m.an)
  {
    t in FirstOfSeq(m.g, m.an, Rest(m.g, y)) || (AllLambda(m.g, m.an, Rest(m.g, y)) && Follows(m, k, y, t))
  }

  /** Moving the dot over a symbol: there is an edge, and what may follow stays. */
  lemma MoveDot(m: Analysed, k: nat, y: Item, sym: Symbol, a: nat) returns (to: nat)
    requires WellAnalysed(m) && Holds(m, k, y) && Before(m.g, y, sym) && Covers(m.g, sym, a)
    ensures Edge(m.g, m.states, k, a, to) && Holds(m, to, Advance(y))
    ensures forall t: nat :: Follows(m, k, y, t) ==> Follows(m, to, Advance(y), t)
  {
    var sh := ShiftOver(m, k, y, sym);
    to := sh.target;
    hide WellAnalysed, Wf, Propagates, Before, Covers;
    forall t: nat | Follows(m, k, y, t) ensures Follows(m, to, Advance(y), t) {
      FollowsPass(m, Config(k, y), Config(to, Advance(y)), t);
    }
  }

  lemma ShiftOver(m: Analysed, k: nat, y: Item, sym: Symbol) returns (sh: Shift)
    requires WellAnalysed(m) && Holds(m, k, y) && Before(m.g, y, sym)
    ensures sh in m.states[k].shifts && sh.sym == sym && Holds(m, sh.target, Advance(y))
    ensures Propagates(m.g, m.states, Config(k, y), Config(sh.target, Advance(y)))
  {
    hide FollowClosed, LambdaClosed, FirstClosed, IsClosure;
    assert Complete(m.g, m.states, k);
    sh :| sh in m.states[k].shifts && sh.sym == sym;
    ShiftFits(m.g, m.an, m.states, k, sh);
    assert Advance(y) in Moved(m.g, m.states[k].closed.items, sym);
    BasisInState(m, sh.target, Advance(y));
  }

  lemma BasisInState(m: Analysed, k: nat, x: Item)
    requires Wf(m) && k < |m.states| && x in Members(m.states[k].basis)
    ensures Holds(m, k, x)
  {
    assert StateOk(m.g, m.an, m.states[k], k);
    assert InClosureBy(m.g, m.states[k].basis, 0, x);
  }

  // ---- Lists without conflicts ----

  /** Every action a state is entitled to is what its list says. */
  ghost predicate Decided(m: Analysed, rows: seq<seq<Action>>) {
    && |rows| == |m.states|
    && forall k: nat, sp: nat, kind: Kind, arg: nat :: k < |rows| && Entitled(m, k, sp, kind, arg) ==> Goto(rows[k], sp) == Some(Move(kind, arg))
  }

  /** Without conflicts the lists say all that the states are entitled to. */
  lemma FreeIsDecided(m: Analysed, lists: seq<seq<Action>>)
    requires |lists| == |m.states| && ConflictFree(m) && forall k :: 0 <= k < |lists| ==> Resolved(m, k, lists[k])
    ensures Decided(m, lists)
  {
    hide Entitled, Deterministic;
    forall k: nat, sp: nat, kind: Kind, arg: nat | k < |lists| && Entitled(m, k, sp, kind, arg) ensures Goto(lists[k], sp) == Some(Move(kind, arg)) {
      LiveOnMembers(lists[k], sp);
      var a := LiveOn(lists[k], sp)[0];
      assert a in LiveOn(lists[k], sp);
      assert Entitled(m, k, sp, a.kind, a.arg);
      assert ConflictFreeAt(m, k);
    }
  }

  lemma ListMove(aps: seq<Action>, sp: nat, d: nat)
    requires Goto(aps, sp) != None
    ensures Lookup(aps, sp, d) == Goto(aps, sp)
  {
  }

  lemma ShiftTurn(m: Analysed, rows: seq<seq<Action>>, stack: seq<Top>, k: nat, a: nat, input: seq<nat>, to: nat)
    requires RulesOk(RulesOf(m.g)) && Decided(m, rows) && k < |rows| && stack != [] && stack[|stack| - 1] == AtState(k) && Edge(m.g, m.states, k, a, to)
    ensures Turn(RulesOf(m.g), rows, Conf(stack, [a] + input)) == Next(Conf(stack + [AtState(to)], input))
  {
    assert Entitled(m, k, a, SHIFT, to);
    ListMove(rows[k], a, m.g.nsymbol);
    hide Edge, Entitled, Lookup, Goto;
    assert ([a] + input)[1..] == input;
  }

  lemma ReduceTurn(m: Analysed, rows: seq<seq<Action>>, stack: seq<Top>, k: nat, below: seq<Top>, b: nat, r: nat, t: nat, rest: seq<nat>)
    requires RulesOk(RulesOf(m.g)) && Decided(m, rows) && k < |rows| && b < |rows| && r < |m.g.rules|
    requires stack != [] && stack[|stack| - 1] == AtState(k) && below != [] && below[|below| - 1] == AtState(b)
    requires |stack| == |below| + |m.g.rules[r].rhs| && stack[..|below|] == below
    requires Follows(m, k, Item(r, |m.g.rules[r].rhs|), t)
    ensures Turn(RulesOf(m.g), rows, Conf(stack, [t] + rest)) == Landed(below, [t] + rest, Goto(rows[b], m.g.rules[r].lhs))
  {
    var c: nat :| c < |m.cfgs| && c < |m.fws| && m.cfgs[c] == Config(k, Item(r, |m.g.rules[r].rhs|)) && t in m.fws[c];
    assert ReducesAt(m, k, r, t, c);
    assert Entitled(m, k, t, REDUCE, r);
    ListMove(rows[k], t, m.g.nsymbol);
    hide Entitled, Lookup, Goto, Landed;
  }

  // ---- Parsing along a tree ----

  /** Parsing the symbols behind the dot of `y`, with `t` next, completes the rule. */
  lemma {:induction false} ParseSymbols(m: Analysed, rows: seq<seq<Action>>, stack: seq<Top>, k: nat, y: Item, ts: seq<Tree>, t: nat, rest: seq<nat>, h: nat)
    returns (stack': seq<Top>, k': nat)
    requires WellAnalysed(m) && RulesOk(RulesOf(m.g)) && Decided(m, rows)
    requires stack != [] && stack[|stack| - 1] == AtState(k) && Holds(m, k, y) && Follows(m, k, y, t)
    requires y.rule < |m.g.rules| && y.dot <= |m.g.rules[y.rule].rhs| && Forest(m.g, m.g.rules[y.rule].rhs[y.dot..], ts) && |stack| + Sizes(ts) <= h
    ensures StepsWithin(RulesOf(m.g), rows, Conf(stack, Yields(ts) + [t] + rest), Sizes(ts), h, Conf(stack', [t] + rest))
    ensures |stack'| == |stack| + |ts| && stack'[..|stack|] == stack && stack'[|stack'| - 1] == AtState(k')
    ensures Holds(m, k', Item(y.rule, |m.g.rules[y.rule].rhs|)) && Follows(m, k', Item(y.rule, |m.g.rules[y.rule].rhs|), t)
    decreases ts, 1
  {
    hide WellAnalysed, Forest, CanFollow, Decided, RulesOf, Yields, FirstOfSeq, StepsWithin, Follows, Holds, TreeOf;
    if ts == [] {
      stack', k' := stack, k;
      NoSteps(RulesOf(m.g), rows, Conf(stack, [t] + rest), h);
      NoSymbols(m, y, ts);
      assert Yields(ts) + [t] + rest == [t] + rest;
    } else {
      FollowBehind(m, k, y, ts, t);
      var u := Yields(ts[1..]) + [t];
      var k1 := ParseOne(m, rows, stack, k, y, ts[0], u[0], u[1..] + rest, h);
      stack', k' := ParseSymbols(m, rows, stack + [AtState(k1)], k1, Advance(y), ts[1..], t, rest, h);
      SymbolsCompose(RulesOf(m.g), rows, stack, AtState(k1), stack', ts, t, rest, h);
    }
  }

  /** The first tree, then the others. */
  lemma SymbolsCompose(G: Rules, rows: seq<seq<Action>>, stack: seq<Top>, top: Top, stack': seq<Top>, ts: seq<Tree>, t: nat, rest: seq<nat>, h: nat)
    requires RulesOk(G) && ts != [] && |stack'| == |stack| + 1 + |ts[1..]| && stack'[..|stack| + 1] == stack + [top]
    requires var u := Yields(ts[1..]) + [t];
      StepsWithin(G, rows, Conf(stack, Yield(ts[0]) + [u[0]] + (u[1..] + rest)), Size(ts[0]), h, Conf(stack + [top], [u[0]] + (u[1..] + rest)))
    requires StepsWithin(G, rows, Conf(stack + [top], Yields(ts[1..]) + [t] + rest), Sizes(ts[1..]), h, Conf(stack', [t] + rest))
    ensures StepsWithin(G, rows, Conf(stack, Yields(ts) + [t] + rest), Sizes(ts), h, Conf(stack', [t] + rest))
    ensures |stack'| == |stack| + |ts| && stack'[..|stack|] == stack
  {
    YieldsGlue(ts, t, rest);
    hide StepsWithin, Yields, Yield, Sizes, Size;
    StepsCompose(G, rows, Conf(stack, Yields(ts) + [t] + rest), Size(ts[0]), h, Conf(stack + [top], Yields(ts[1..]) + [t] + rest), Sizes(ts[1..]), Conf(stack', [t] + rest));
    assert stack'[..|stack|] == stack'[..|stack| + 1][..|stack|];
  }

  lemma NoSteps(G: Rules, rows: seq<seq<Action>>, c: Conf, h: nat)
    requires RulesOk(G) && |c.stack| <= h
    ensures StepsWithin(G, rows, c, 0, h, c)
  {
  }

  lemma NoSymbols(m: Analysed, y: Item, ts: seq<Tree>)
    requires y.rule < |m.g.rules| && y.dot <= |m.g.rules[y.rule].rhs| && Forest(m.g, m.g.rules[y.rule].rhs[y.dot..], ts) && ts == []
    ensures y == Item(y.rule, |m.g.rules[y.rule].rhs|) && Yields(ts) == []
  {
  }

  /** The first token behind the first tree may follow its symbol. */
  lemma FollowBehind(m: Analysed, k: nat, y: Item, ts: seq<Tree>, t: nat)
    requires WellAnalysed(m) && Follows(m, k, y, t) && ts != []
    requires y.rule < |m.g.rules| && y.dot <= |m.g.rules[y.rule].rhs| && Forest(m.g, m.g.rules[y.rule].rhs[y.dot..], ts)
    ensures y.dot < |m.g.rules[y.rule].rhs| && TreeOf(m.g, m.g.rules[y.rule].rhs[y.dot], ts[0])
    ensures Forest(m.g, m.g.rules[y.rule].rhs[y.dot + 1..], ts[1..])
    ensures Sized(m.g, m.an) && CanFollow(m, k, y, (Yields(ts[1..]) + [t])[0])
  {
    var rhs := m.g.rules[y.rule].rhs;
    assert rhs[y.dot..][0] == rhs[y.dot] && rhs[y.dot..][1..] == rhs[y.dot + 1..] == Rest(m.g, y);
    hide IsAutomaton, TreeOf;
    ForestTail(m.g, rhs[y.dot..], ts);
    ForestBegins(m.g, m.an, rhs[y.dot + 1..], ts[1..]);
  }

  lemma YieldsGlue(ts: seq<Tree>, t: nat, rest: seq<nat>)
    requires ts != []
    ensures var u := Yields(ts[1..]) + [t];
      Yield(ts[0]) + [u[0]] + (u[1..] + rest) == Yields(ts) + [t] + rest && [u[0]] + (u[1..] + rest) == Yields(ts[1..]) + [t] + rest
    ensures Sizes(ts) == Size(ts[0]) + Sizes(ts[1..])
  {
    var u := Yields(ts[1..]) + [t];
    assert [u[0]] + (u[1..] + rest) == u + rest;
  }

  /** Parsing the symbol behind the dot of `y`: one more state on the stack. */
  lemma {:induction false} ParseOne(m: Analysed, rows: seq<seq<Action>>, stack: seq<Top>, k: nat, y: Item, tree: Tree, t: nat, rest: seq<nat>, h: nat)
    returns (to: nat)
    requires Sized(m.g, m.an) && WellAnalysed(m) && RulesOk(RulesOf(m.g)) && Decided(m, rows)
    requires stack != [] && stack[|stack| - 1] == AtState(k) && Holds(m, k, y) && CanFollow(m, k, y, t)
    requires y.rule < |m.g.rules| && y.dot < |m.g.rules[y.rule].rhs| && TreeOf(m.g, m.g.rules[y.rule].rhs[y.dot], tree) && |stack| + Size(tree) <= h
    ensures StepsWithin(RulesOf(m.g), rows, Conf(stack, Yield(tree) + [t] + rest), Size(tree), h, Conf(stack + [AtState(to)], [t] + rest))
    ensures Holds(m, to, Advance(y)) && forall u: nat :: Follows(m, k, y, u) ==> Follows(m, to, Advance(y), u)
    decreases tree, 1
  {
    hide WellAnalysed, Decided, TreeOf, Forest, CanFollow, StepsWithin, Entitled, Follows, Holds, RulesOf;
    match tree
    case Leaf(a) =>
      to := ParseLeaf(m, rows, stack, k, y, a, t, rest, h);
    case Node(r, cs) =>
      to := NodeFacts(m, k, y, r, cs, t);
      var stack', k1 := ParseSymbols(m, rows, stack, k, Item(r, 0), cs, t, rest, h);
      HeldInRange(m, rows, k, Item(r, 0));
      HeldInRange(m, rows, k1, Item(r, |m.g.rules[r].rhs|));
      Finish(m, rows, stack, k, stack', k1, r, Conf(stack, Yields(cs) + [t] + rest), Sizes(cs), t, rest, h, to);
  }

  lemma HeldInRange(m: Analysed, rows: seq<seq<Action>>, k: nat, x: Item)
    requires Decided(m, rows) && Holds(m, k, x)
    ensures k < |rows| == |m.states|
  {
    hide Entitled;
  }

  lemma ParseLeaf(m: Analysed, rows: seq<seq<Action>>, stack: seq<Top>, k: nat, y: Item, a: nat, t: nat, rest: seq<nat>, h: nat)
    returns (to: nat)
    requires WellAnalysed(m) && RulesOk(RulesOf(m.g)) && Decided(m, rows)
    requires stack != [] && stack[|stack| - 1] == AtState(k) && Holds(m, k, y) && |stack| + 1 <= h
    requires y.rule < |m.g.rules| && y.dot < |m.g.rules[y.rule].rhs| && TreeOf(m.g, m.g.rules[y.rule].rhs[y.dot], Leaf(a))
    ensures StepsWithin(RulesOf(m.g), rows, Conf(stack, [a] + [t] + rest), 1, h, Conf(stack + [AtState(to)], [t] + rest))
    ensures Holds(m, to, Advance(y)) && forall u: nat :: Follows(m, k, y, u) ==> Follows(m, to, Advance(y), u)
  {
    to := MoveDot(m, k, y, m.g.rules[y.rule].rhs[y.dot], a);
    HeldInRange(m, rows, k, y);
    hide WellAnalysed, Edge, Decided, Turn, Follows, Holds, RulesOf;
    ShiftTurn(m, rows, stack, k, a, [t] + rest, to);
    assert [a] + [t] + rest == [a] + ([t] + rest);
    OneStep(RulesOf(m.g), rows, Conf(stack, [a] + ([t] + rest)), h, Conf(stack + [AtState(to)], [t] + rest));
  }

  /** A nonterminal behind the dot: the rule of its tree is in the state, and its left-hand side can be shifted. */
  lemma NodeFacts(m: Analysed, k: nat, y: Item, r: nat, cs: seq<Tree>, t: nat) returns (to: nat)
    requires WellAnalysed(m) && Holds(m, k, y) && CanFollow(m, k, y, t)
    requires y.rule < |m.g.rules| && y.dot < |m.g.rules[y.rule].rhs| && TreeOf(m.g, m.g.rules[y.rule].rhs[y.dot], Node(r, cs))
    ensures r < |m.g.rules| && |cs| == |m.g.rules[r].rhs| && Forest(m.g, m.g.rules[r].rhs[0..], cs) && Holds(m, k, Item(r, 0)) && Follows(m, k, Item(r, 0), t)
    ensures Entitled(m, k, m.g.rules[r].lhs, SHIFT, to) && Holds(m, to, Advance(y))
    ensures forall u: nat :: Follows(m, k, y, u) ==> Follows(m, to, Advance(y), u)
  {
    assert ValidRule(m.g, m.g.rules[r]);
    assert m.g.rules[r].rhs[0..] == m.g.rules[r].rhs;
    assert Forest(m.g, m.g.rules[r].rhs, cs);
    hide WellAnalysed, Holds, Follows, CanFollow, Edge, Forest;
    to := MoveDot(m, k, y, Nonterminal(m.g.rules[r].lhs), m.g.rules[r].lhs);
    SpawnFollows(m, k, y, Item(r, 0), t);
  }

  /** The reduce that ends a rule. */
  lemma Finish(m: Analysed, rows: seq<seq<Action>>, stack: seq<Top>, k: nat, stack': seq<Top>, k1: nat, r: nat, c: Conf, n: nat, t: nat, rest: seq<nat>, h: nat, to: nat)
    requires RulesOk(RulesOf(m.g)) && Decided(m, rows) && r < |m.g.rules|
    requires stack != [] && stack[|stack| - 1] == AtState(k) && k < |rows| && k1 < |rows| && |stack| < h
    requires |stack'| == |stack| + |m.g.rules[r].rhs| && stack'[..|stack|] == stack && stack'[|stack'| - 1] == AtState(k1)
    requires Follows(m, k1, Item(r, |m.g.rules[r].rhs|), t) && Entitled(m, k, m.g.rules[r].lhs, SHIFT, to)
    requires StepsWithin(RulesOf(m.g), rows, c, n, h, Conf(stack', [t] + rest))
    ensures StepsWithin(RulesOf(m.g), rows, c, n + 1, h, Conf(stack + [AtState(to)], [t] + rest))
  {
    ReduceTurn(m, rows, stack', k1, stack, k, r, t, rest);
    hide Turn, Entitled, Follows, Goto;
    LastHeight(RulesOf(m.g), rows, c, n, h, Conf(stack', [t] + rest));
    OneStep(RulesOf(m.g), rows, Conf(stack', [t] + rest), h, Conf(stack + [AtState(to)], [t] + rest));
    StepsCompose(RulesOf(m.g), rows, c, n, h, Conf(stack', [t] + rest), 1, Conf(stack + [AtState(to)], [t] + rest));
  }

  lemma {:induction false} LastHeight(G: Rules, rows: seq<seq<Action>>, c: Conf, n: nat, h: nat, e: Conf)
    requires RulesOk(G) && StepsWithin(G, rows, c, n, h, e)
    ensures |e.stack| <= h
    decreases n
  {
    hide Turn;
    if n > 0 { LastHeight(G, rows, Turn(G, rows, c).c, n - 1, h, e); }
  }

  /** Without conflicts the machine accepts every sentence, in as many turns as its tree has nodes
      and leaves, and with no more entries on the stack. */
  lemma SentencesAccepted(m: Analysed, rows: seq<seq<Action>>, tree: Tree, tokens: seq<nat>, h: nat)
    requires WellAnalysed(m) && RulesOk(RulesOf(m.g)) && Decided(m, rows) && ParseOf(m.g, tree, tokens) && Size(tree) <= h
    ensures AcceptsWithin(RulesOf(m.g), rows, Start(tokens + [0]), Size(tree), h)
  {
    hide WellAnalysed, ParseOf, StepsWithin, AcceptsWithin, Decided, RulesOf, Yields, Forest, Follows, Holds, Size, Sizes;
    var r, cs := StartTree(m, tree, tokens);
    StartItem(m, r);
    var stack', k := ParseSymbols(m, rows, [AtState(0)], 0, Item(r, 0), cs, 0, [], h);
    assert tokens + [0] == Yields(cs) + [0] + [] && [0] + [] == [0];
    HeldInRange(m, rows, k, Item(r, |m.g.rules[r].rhs|));
    StartReduce(m, rows, stack', k, r, h, Start(tokens + [0]), Sizes(cs));
    StepsThenAccept(RulesOf(m.g), rows, Start(tokens + [0]), Sizes(cs), h, Conf(stack', [0]), 1);
  }

  /** Parsing from the lists accepts every sentence, given as many turns and entries on the stack
      as its tree has nodes and leaves. */
  ghost predicate AcceptsSentences(g: Grammar, rows: seq<seq<Action>>)
    requires RulesOk(RulesOf(g))
  {
    forall tree: Tree, tokens: seq<nat>, h: nat :: ParseOf(g, tree, tokens) && Size(tree) <= h ==> AcceptsTree(g, rows, tree, tokens, h)
  }

  ghost predicate AcceptsTree(g: Grammar, rows: seq<seq<Action>>, tree: Tree, tokens: seq<nat>, h: nat)
    requires RulesOk(RulesOf(g))
  {
    AcceptsWithin(RulesOf(g), rows, Start(tokens + [0]), Size(tree), h)
  }

  lemma FreeIsComplete(m: Analysed, lists: seq<seq<Action>>)
    requires WellAnalysed(m) && RulesOk(RulesOf(m.g)) && |lists| == |m.states| && ConflictFree(m)
    requires forall k :: 0 <= k < |lists| ==> Resolved(m, k, lists[k])
    ensures AcceptsSentences(m.g, lists)
  {
    FreeIsDecided(m, lists);
    hide WellAnalysed, RulesOf, ConflictFree, Resolved, Decided, ParseOf, AcceptsWithin, Size;
    forall tree: Tree, tokens: seq<nat>, h: nat | ParseOf(m.g, tree, tokens) && Size(tree) <= h ensures AcceptsTree(m.g, lists, tree, tokens, h) {
      SentencesAccepted(m, lists, tree, tokens, h);
    }
  }

  lemma StartTree(m: Analysed, tree: Tree, tokens: seq<nat>) returns (r: nat, cs: seq<Tree>)
    requires ParseOf(m.g, tree, tokens)
    ensures r < |m.g.rules| && m.g.rules[r].lhs == m.g.start && Forest(m.g, m.g.rules[r].rhs[0..], cs)
    ensures |cs| == |m.g.rules[r].rhs| && Yields(cs) == tokens && Size(tree) == 1 + Sizes(cs)
  {
    r, cs := tree.rule, tree.children;
    assert m.g.rules[r].rhs[0..] == m.g.rules[r].rhs;
  }

  /** Reducing a start rule at the bottom accepts. */
  lemma StartReduce(m: Analysed, rows: seq<seq<Action>>, stack: seq<Top>, k: nat, r: nat, h: nat, c: Conf, n: nat)
    requires WellAnalysed(m) && RulesOk(RulesOf(m.g)) && Decided(m, rows) && r < |m.g.rules| && m.g.rules[r].lhs == m.g.start
    requires |stack| == 1 + |m.g.rules[r].rhs| && stack[..1] == [AtState(0)] && stack[|stack| - 1] == AtState(k) && k < |m.states|
    requires Follows(m, k, Item(r, |m.g.rules[r].rhs|), 0) && StepsWithin(RulesOf(m.g), rows, c, n, h, Conf(stack, [0]))
    ensures AcceptsWithin(RulesOf(m.g), rows, Conf(stack, [0]), 1, h)
  {
    assert Entitled(m, 0, m.g.start, ACCEPT, 0);
    assert |m.states| > 0;
    hide WellAnalysed, Entitled;
    assert [0] + [] == [0];
    ReduceTurn(m, rows, stack, k, [AtState(0)], 0, r, 0, []);
    LastHeight(RulesOf(m.g), rows, c, n, h, Conf(stack, [0]));
    hide Turn, Goto;
  }

  lemma StartItem(m: Analysed, r: nat)
    requires WellAnalysed(m) && r < |m.g.rules| && m.g.rules[r].lhs == m.g.start
    ensures Holds(m, 0, Item(r, 0)) && Follows(m, 0, Item(r, 0), 0)
  {
    assert StateOk(m.g, m.an, m.states[0], 0);
    assert IsStartItem(m.g, Item(r, 0));
    BasisInState(m, 0, Item(r, 0));
    ItemFacts(m, 0, Item(r, 0));
    var st := m.states[0];
    assert SeedExact(m.g, m.an, st.basis, Seed(0), st.closed.items, Item(r, 0), st.closed.seeds[Item(r, 0)]);
    SeedFollows(m, 0, Item(r, 0), 0);
  }
}
