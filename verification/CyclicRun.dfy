/** A cyclic grammar whose generated parser reduces forever on a sentence. */
module CyclicRun {
  import opened Wrappers
  import opened Grammars
  import opened FirstSets
  import opened Closures
  import opened Automata
  import opened StackInvariant
  import opened Driver
  import opened Actions
  import opened Compress
  import opened ActionLists
  import opened ActionTable
  import opened TableGen
  import opened Lookaheads
  import opened Packing
  import opened Completeness
  import opened DriverRuns
  import opened Generator
  import opened Turns
  import CompressionRuns
  import Machine
  import MergeSort

  const TOKEN: nat := 1
  const A: nat := 2
  const S: nat := 3

  /** `A ::= A`, `A ::= TOKEN`, `S ::= A`, with `S` the start symbol. */
  function Loop(): Grammar {
    Grammar(2, 4, [Rule(A, [Nonterminal(A)]), Rule(A, [Terminal(TOKEN)]), Rule(S, [Nonterminal(A)])], S)
  }

  function NoPrecedences(): Precedences { Precedences(map[], map[], map[]) }

  lemma LoopIsValid()
    ensures ValidGrammar(Loop()) && NoStartOnRhs(Loop()) && NoNonassoc(NoPrecedences()) && Cyclic(Loop())
  {
    RuleOn(Loop(), 0);
  }

  lemma TokenIsSentence()
    ensures Sentence(Loop(), [TOKEN])
  {
    var g := Loop();
    assert g.rules[2] == Rule(S, [Nonterminal(A)]) && g.rules[1] == Rule(A, [Terminal(TOKEN)]);
    DerivesExpand(g, Nonterminal(S), [Nonterminal(A)]);
    DerivesExpand(g, Nonterminal(A), [Terminal(TOKEN)]);
    DerivesTrans(g, [Nonterminal(S)], [Nonterminal(A)], [Terminal(TOKEN)]);
    assert Word([TOKEN]) == [Terminal(TOKEN)];
  }

  // ---- What the states are entitled to ----

  /** The only action a state is entitled to on a symbol. */
  ghost predicate Only(m: Analysed, k: nat, sp: nat, kind: Kind, arg: nat) {
    && k < |m.states| && Entitled(m, k, sp, kind, arg)
    && forall kind': Kind, arg': nat :: Entitled(m, k, sp, kind', arg') ==> kind' == kind && arg' == arg
  }

  lemma OnlyIsListed(m: Analysed, lists: seq<seq<Action>>, k: nat, sp: nat, kind: Kind, arg: nat)
    requires |lists| == |m.states| && Only(m, k, sp, kind, arg) && Resolved(m, k, lists[k])
    ensures Machine.Goto(lists[k], sp) == Some(Move(kind, arg)) && Lookup(lists[k], sp, m.g.nsymbol) == Some(Move(kind, arg))
  {
    hide Entitled, Deterministic;
    LiveOnMembers(lists[k], sp);
    assert LiveOn(lists[k], sp)[0] in LiveOn(lists[k], sp);
  }

  /** Two edges from a state on one symbol lead to the same state. */
  lemma EdgeUnique(m: Analysed, k: nat, a: nat, to: nat, to': nat)
    requires Wf(m) && m.g == Loop() && Edge(m.g, m.states, k, a, to) && Edge(m.g, m.states, k, a, to')
    ensures to == to'
  {
    hide Wf;
    var sh := LoopEdge(m, k, a, to);
    var sh' := LoopEdge(m, k, a, to');
    OneShift(m, k, sh, sh');
  }

  lemma LoopEdge(m: Analysed, k: nat, a: nat, to: nat) returns (sh: Shift)
    requires Wf(m) && m.g == Loop() && Edge(m.g, m.states, k, a, to)
    ensures sh in m.states[k].shifts && sh.target == to && sh.sym == SymbolOf(m.g, a) && (a == A || a == TOKEN)
  {
    sh :| sh in m.states[k].shifts && Covers(m.g, sh.sym, a) && sh.target == to;
    ShiftFits(m.g, m.an, m.states, k, sh);
    hide IsAutomaton;
    var y :| y in m.states[k].closed.items && Before(m.g, y, sh.sym);
  }

  lemma ReducedItem(m: Analysed, k: nat, r: nat, t: nat)
    requires Wf(m) && m.g == Loop() && Entitled(m, k, t, REDUCE, r)
    ensures k < |m.states| && r < 3 && Item(r, 1) in m.states[k].closed.items && k > 0
  {
    ReduceEnds(m, k, t, r);
    DottedItem(m.g, m.an, m.states, k, Item(r, 1));
  }

  lemma StartFollows(m: Analysed, y: Item)
    requires WellAnalysed(m) && m.g == Loop() && y in {Item(0, 0), Item(1, 0)}
    ensures Holds(m, 0, y) && Follows(m, 0, y, 0)
  {
    StartItem(m, 2);
    hide IsAutomaton, FollowClosed, Follows;
    assert AllLambda(m.g, m.an, []) && Rest(m.g, Item(2, 0)) == [];
    assert Before(m.g, Item(2, 0), Nonterminal(A)) && Spawns(m.g, Item(2, 0), y);
    SpawnFollows(m, 0, Item(2, 0), y, 0);
  }

  /** From state 0 there are shifts only. */
  lemma FromStart(m: Analysed, a: nat) returns (to: nat)
    requires WellAnalysed(m) && m.g == Loop() && (a == A || a == TOKEN)
    ensures Only(m, 0, a, SHIFT, to) && Edge(m.g, m.states, 0, a, to)
    ensures Follows(m, to, Item(if a == A then 0 else 1, 1), 0) && to < |m.states|
  {
    var y := Item(if a == A then 0 else 1, 0);
    StartFollows(m, y);
    assert Wf(m) && |m.states| > 0;
    hide WellAnalysed, Wf;
    to := MoveDot(m, 0, y, SymbolOf(m.g, a), a);
    hide Follows, Edge;
    forall kind': Kind, arg': nat | Entitled(m, 0, a, kind', arg') ensures kind' == SHIFT && arg' == to {
      if kind' == REDUCE { ReducedItem(m, 0, arg', a); }
      if kind' == SHIFT { EdgeUnique(m, 0, a, to, arg'); }
    }
  }

  /** On the end marker there are reduces only, by rules that end in the symbol just passed. */
  lemma AtEnd(m: Analysed, a: nat, k: nat, kind: Kind, r: nat)
    requires Wf(m) && m.g == Loop() && Edge(m.g, m.states, 0, a, k) && k < |m.states| && Entitled(m, k, 0, kind, r)
    ensures kind == REDUCE && r < 3 && m.g.rules[r].rhs == [SymbolOf(m.g, a)]
  {
    if kind == SHIFT {
      var sh := LoopEdge(m, k, 0, r);
    } else {
      ReducedItem(m, k, r, 0);
      StepBack(m.g, m.an, m.states, 0, a, k, Item(r, 1));
    }
  }

  lemma AfterToken(m: Analysed, k: nat)
    requires Wf(m) && m.g == Loop() && Edge(m.g, m.states, 0, TOKEN, k) && k < |m.states| && Follows(m, k, Item(1, 1), 0)
    ensures Only(m, k, 0, REDUCE, 1)
  {
    CompressionRuns.FollowsEntitled(m, k, 1, 0);
    forall kind: Kind, r: nat | Entitled(m, k, 0, kind, r) ensures kind == REDUCE && r == 1 {
      AtEnd(m, TOKEN, k, kind, r);
    }
  }

  // ---- Between reduces without precedences the least rule wins ----

  lemma {:induction false} FirstWins(p: Precedences, cs: seq<Action>)
    requires p.prec == map[] && cs != [] && forall i :: 0 <= i < |cs| ==> cs[i].kind == REDUCE
    ensures Champion(p, cs) == cs[0]
    decreases |cs|
  {
    if |cs| > 1 {
      assert Winner(p, cs[0], cs[1]) == cs[0];
      FirstWins(p, [cs[0]] + cs[2..]);
    }
  }

  lemma {:induction false} FirstIsLeast(aps: seq<Action>, sp: nat, a: Action)
    requires MergeSort.Sorted(ActionCmp, aps) && a in LiveOn(aps, sp)
    ensures ActionCmp(LiveOn(aps, sp)[0], a) <= 0
  {
    if Live(aps[0]) && aps[0].sp == sp {
      LiveOnMembers(aps, sp);
      var i :| 0 <= i < |aps| && aps[i] == a;
      assert i > 0 ==> ActionCmp(aps[0], aps[i]) <= 0;
    } else {
      FirstIsLeast(aps[1..], sp, a);
    }
  }

  /** In the state behind `A` the rule `A ::= A` is chosen on the end marker. */
  lemma AfterLoop(m: Analysed, lists: seq<seq<Action>>, k: nat)
    requires Wf(m) && m.g == Loop() && Edge(m.g, m.states, 0, A, k) && k < |m.states| == |lists| && Follows(m, k, Item(0, 1), 0)
    requires Elected(m, NoPrecedences(), k, lists[k])
    ensures Lookup(lists[k], 0, m.g.nsymbol) == Some(Move(REDUCE, 0))
  {
    CompressionRuns.FollowsEntitled(m, k, 0, 0);
    hide Wf, Edge, Follows, Entitled, MergeSort.Sorted, Champion;
    var sorted :| ElectedFrom(m, NoPrecedences(), k, lists[k], sorted);
    assert Listed(sorted, 0, REDUCE, 0);
    var best: Action :| best in sorted && best.sp == 0 && best.kind == REDUCE && best.arg == 0;
    LiveOnMembers(sorted, 0);
    var cs := LiveOn(sorted, 0);
    assert best in cs;
    forall i | 0 <= i < |cs| ensures cs[i].kind == REDUCE {
      assert cs[i] in cs;
      assert Listed(sorted, 0, cs[i].kind, cs[i].arg);
      AtEnd(m, A, k, cs[i].kind, cs[i].arg);
    }
    FirstIsLeast(sorted, 0, best);
    FirstWins(NoPrecedences(), cs);
  }

  // ---- The run ----

  const INPUT: seq<nat> := [TOKEN, 0]

  function Looping(k: nat): Machine.Conf { Machine.Conf([Machine.AtState(0), Machine.AtState(k)], [0]) }

  /** What the lists say along the run. */
  lemma LoopMoves(m: Analysed, lists: seq<seq<Action>>) returns (after: nat, k: nat)
    requires WellAnalysed(m) && m.g == Loop() && ResolvedAll(m, NoPrecedences(), lists)
    ensures after < |lists| && k < |lists|
    ensures Lookup(lists[0], TOKEN, Loop().nsymbol) == Some(Move(SHIFT, after)) && Machine.Goto(lists[0], A) == Some(Move(SHIFT, k))
    ensures Lookup(lists[after], 0, Loop().nsymbol) == Some(Move(REDUCE, 1)) && Lookup(lists[k], 0, Loop().nsymbol) == Some(Move(REDUCE, 0))
  {
    assert Wf(m);
    after := FromStart(m, TOKEN);
    k := FromStart(m, A);
    hide WellAnalysed, Wf, Resolved, Elected, Only, Edge, Follows, Lookup, Machine.Goto;
    assert 0 < |lists|;
    OnlyIsListed(m, lists, 0, TOKEN, SHIFT, after);
    OnlyIsListed(m, lists, 0, A, SHIFT, k);
    AfterToken(m, after);
    OnlyIsListed(m, lists, after, 0, REDUCE, 1);
    AfterLoop(m, lists, k);
  }

  /** The run shifts the token, reduces by `A ::= TOKEN`, and then by `A ::= A` again and again. */
  lemma LoopTurns(m: Analysed, lists: seq<seq<Action>>) returns (after: nat, k: nat)
    requires WellAnalysed(m) && m.g == Loop() && ResolvedAll(m, NoPrecedences(), lists) && Machine.RulesOk(RulesOf(Loop()))
    ensures Machine.Turn(RulesOf(Loop()), lists, Start(INPUT)) == Machine.Next(Looping(after))
    ensures Machine.Turn(RulesOf(Loop()), lists, Looping(after)) == Machine.Next(Looping(k))
    ensures Machine.Turn(RulesOf(Loop()), lists, Looping(k)) == Machine.Next(Looping(k))
  {
    hide *;
    after, k := LoopMoves(m, lists);
    ShiftAtStart(lists, after);
    ReduceAtBottom(lists, after, 1, k);
    ReduceAtBottom(lists, k, 0, k);
  }

  lemma ShiftAtStart(lists: seq<seq<Action>>, to: nat)
    requires Machine.RulesOk(RulesOf(Loop())) && 0 < |lists| && Lookup(lists[0], TOKEN, Loop().nsymbol) == Some(Move(SHIFT, to))
    ensures Machine.Turn(RulesOf(Loop()), lists, Start(INPUT)) == Machine.Next(Looping(to))
  {
    hide Lookup;
    assert INPUT[1..] == [0];
  }

  lemma ReduceAtBottom(lists: seq<seq<Action>>, k: nat, r: nat, to: nat)
    requires Machine.RulesOk(RulesOf(Loop())) && k < |lists| && r < 2
    requires Lookup(lists[k], 0, Loop().nsymbol) == Some(Move(REDUCE, r)) && Machine.Goto(lists[0], A) == Some(Move(SHIFT, to))
    ensures Machine.Turn(RulesOf(Loop()), lists, Looping(k)) == Machine.Next(Looping(to))
  {
    hide Lookup, Machine.Goto;
    assert Looping(k).stack[..1] == [Machine.AtState(0)];
  }

  /** The run never ends: after `n` turns two entries are enough, and the end marker is still to come. */
  ghost predicate Endless(rows: seq<seq<Action>>)
    requires Machine.RulesOk(RulesOf(Loop()))
  {
    forall n: nat :: CompressionRuns.StepKept(Loop(), rows, INPUT, n, 2, Left(n))
  }

  function Left(n: nat): seq<nat> { if n == 0 then INPUT else [0] }

  lemma {:induction false} LoopSteps(lists: seq<seq<Action>>, k: nat, n: nat)
    requires Machine.RulesOk(RulesOf(Loop())) && Machine.Turn(RulesOf(Loop()), lists, Looping(k)) == Machine.Next(Looping(k))
    ensures Machine.StepsWithin(RulesOf(Loop()), lists, Looping(k), n, 2, Looping(k))
  {
    hide Machine.Turn, RulesOf;
    if n > 0 { LoopSteps(lists, k, n - 1); }
  }

  lemma StepsOn(lists: seq<seq<Action>>, after: nat, k: nat, n: nat)
    requires Machine.RulesOk(RulesOf(Loop())) && Machine.Turn(RulesOf(Loop()), lists, Start(INPUT)) == Machine.Next(Looping(after))
    requires Machine.Turn(RulesOf(Loop()), lists, Looping(after)) == Machine.Next(Looping(k))
    requires Machine.Turn(RulesOf(Loop()), lists, Looping(k)) == Machine.Next(Looping(k))
    ensures CompressionRuns.StepKept(Loop(), lists, INPUT, n, 2, Left(n))
  {
    hide Machine.Turn, RulesOf;
    var G, c := RulesOf(Loop()), Start(INPUT);
    if n == 0 {
      assert Machine.StepsWithin(G, lists, c, 0, 2, c);
    } else if n == 1 {
      Machine.OneStep(G, lists, c, 2, Looping(after));
    } else {
      LoopSteps(lists, k, n - 2);
      assert Machine.StepsWithin(G, lists, Looping(after), n - 1, 2, Looping(k));
      assert Machine.StepsWithin(G, lists, c, n, 2, Looping(k));
    }
  }

  lemma ListsEndless(m: Analysed, lists: seq<seq<Action>>)
    requires WellAnalysed(m) && m.g == Loop() && ResolvedAll(m, NoPrecedences(), lists) && Machine.RulesOk(RulesOf(Loop()))
    ensures Endless(lists)
  {
    hide WellAnalysed, ResolvedAll, Machine.Turn, RulesOf, CompressionRuns.StepKept, Looping;
    var after, k := LoopTurns(m, lists);
    forall n: nat ensures CompressionRuns.StepKept(Loop(), lists, INPUT, n, 2, Left(n)) {
      StepsOn(lists, after, k, n);
    }
  }

  lemma FinalsEndless(lists: seq<seq<Action>>, finals: seq<seq<Action>>)
    requires Machine.RulesOk(RulesOf(Loop())) && Endless(lists) && CompressionRuns.StepsKept(Loop(), lists, finals)
    ensures Endless(finals)
  {
    hide Machine.StepsWithin;
    assert Machine.InputOk(RulesOf(Loop()), INPUT);
    forall n: nat ensures CompressionRuns.StepKept(Loop(), finals, INPUT, n, 2, Left(n)) {
      assert CompressionRuns.StepKept(Loop(), lists, INPUT, n, 2, Left(n));
      var e :| Machine.StepsWithin(RulesOf(Loop()), lists, Start(INPUT), n, 2, e) && e.input == Left(n);
    }
  }

  // ---- The driver on that run ----

  lemma {:induction false} StepsSplit(G: Machine.Rules, rows: seq<seq<Action>>, c: Machine.Conf, n: nat, limit: nat, c': Machine.Conf, k: nat, h: nat, e: Machine.Conf)
    requires Machine.RulesOk(G) && Machine.StepsWithin(G, rows, c, n, limit, c') && Machine.StepsWithin(G, rows, c, n + k, h, e)
    ensures Machine.StepsWithin(G, rows, c', k, h, e)
    decreases n
  {
    hide Machine.Turn;
    if n > 0 { StepsSplit(G, rows, Machine.Turn(G, rows, c).c, n - 1, limit, c', k, h, e); }
  }

  /** Wherever the run has come to, there is a next turn. */
  lemma NeverOver(rows: seq<seq<Action>>, n: nat, limit: nat, c: Machine.Conf)
    requires Machine.RulesOk(RulesOf(Loop())) && Endless(rows) && Machine.StepsWithin(RulesOf(Loop()), rows, Start(INPUT), n, limit, c)
    ensures c.input == Left(n)
    ensures Machine.Turn(RulesOf(Loop()), rows, c).Next? && |Machine.Turn(RulesOf(Loop()), rows, c).c.stack| <= 2
  {
    hide Machine.Turn, RulesOf, Left;
    var G := RulesOf(Loop());
    assert CompressionRuns.StepKept(Loop(), rows, INPUT, n, 2, Left(n)) && CompressionRuns.StepKept(Loop(), rows, INPUT, n + 1, 2, Left(n + 1));
    var e :| Machine.StepsWithin(G, rows, Start(INPUT), n, 2, e) && e.input == Left(n);
    var e' :| Machine.StepsWithin(G, rows, Start(INPUT), n + 1, 2, e') && e'.input == Left(n + 1);
    StepsSplit(G, rows, Start(INPUT), n, limit, c, 0, 2, e);
    StepsSplit(G, rows, Start(INPUT), n, limit, c, 1, 2, e');
    var next := Machine.Turn(G, rows, c);
    assert Machine.StepsWithin(G, rows, next.c, 0, 2, e');
  }

  /** Feeding a token while the run goes on: it is shifted at first, and later nothing happens. */
  lemma FedEndless(m: Meaning, T: Tables, finals: seq<seq<Action>>, limit: nat, n: nat, c: Machine.Conf, fuel: nat, fed: (Outcome, seq<Entry>), k: nat, c': Machine.Conf)
    requires m.g == Loop() && Machine.RulesOk(RulesOf(m.g)) && Endless(finals) && limit >= 2
    requires Machine.StepsWithin(RulesOf(m.g), finals, Start(INPUT), n, limit, c) && FedMeans(m, T, finals, limit, c, fuel, fed, k, c')
    ensures fed.0 == if n == 0 && fuel > 0 then Shifted else OutOfFuel
    ensures fed.0 == Shifted ==> n == 0 && k > 0
    ensures Machine.StepsWithin(RulesOf(m.g), finals, Start(INPUT), n + k, limit, c')
  {
    hide Machine.Turn, RulesOf, Endless, SameStack, Machine.StepsWithin;
    Machine.StepsCompose(RulesOf(m.g), finals, Start(INPUT), n, limit, c, k, c');
    NeverOver(finals, n, limit, c);
    NeverOver(finals, n + k, limit, c');
  }

  /** The parser generated for the grammar shifts the token and then, on the end marker, neither
      accepts nor fails in any number of turns. */
  method CyclicExample(mem: Memory, limit: nat, fuel: nat) returns (first: Outcome, second: Outcome)
    requires limit >= 2 && fuel > 0
    ensures Sentence(Loop(), [TOKEN]) && first == Shifted && second == OutOfFuel
  {
    LoopIsValid();
    TokenIsSentence();
    var T, nconflict;
    ghost var meaning, m, lists, finals;
    T, nconflict, meaning, m, lists, finals := Generate(Loop(), NoPrecedences(), mem);
    ListsEndless(m, lists);
    FinalsEndless(lists, finals);
    SoundRanges(meaning, T);
    first, second := FeedBoth(T, limit, fuel, meaning, finals);
  }

  method FeedBoth(T: Tables, limit: nat, fuel: nat, ghost meaning: Meaning, ghost finals: seq<seq<Action>>) returns (first: Outcome, second: Outcome)
    requires meaning.g == Loop() && Consistent(meaning) && TablesSound(meaning, T) && Mirrors(meaning, T, finals) && T.nterminal == 2
    requires Machine.RulesOk(RulesOf(Loop())) && Endless(finals) && limit >= 2 && fuel > 0
    ensures first == Shifted && second == OutOfFuel
  {
    hide Consistent, TablesSound, Mirrors, Running, RulesOf, Midway, SameStack, FedMeans, InStep, Fed, Endless, Machine.StepsWithin;
    var parser := new Parser(T, limit, meaning);
    ghost var c0 := FeedStart(meaning, T, finals, limit, [TOKEN]);
    FeedInStep(meaning, T, finals, limit, [TOKEN], 0, 0, c0, parser.stack, parser.path, parser.consumed);
    ghost var k, c := FedIsRun(meaning, T, finals, limit, parser.stack, parser.path, parser.consumed, c0, fuel);
    ghost var fed := Fed(T, limit, parser.stack, TOKEN, fuel);
    MidwaySteps(finals, limit, 0, 0, c0);
    FedEndless(meaning, T, finals, limit, 0, c0, fuel, fed, k, c);
    var told;
    first, told := parser.Parse(TOKEN, fuel);
    FeedShifts(meaning, T, finals, limit, [TOKEN], 0, 0, c0, fuel, fed, k, c);
    FeedInStep(meaning, T, finals, limit, [TOKEN], 1, k, c, parser.stack, parser.path, parser.consumed);
    ghost var k', c' := FedIsRun(meaning, T, finals, limit, parser.stack, parser.path, parser.consumed, c, fuel);
    FedEndless(meaning, T, finals, limit, k, c, fuel, Fed(T, limit, parser.stack, 0, fuel), k', c');
    second, told := parser.Parse(0, fuel);
  }

  lemma MidwaySteps(finals: seq<seq<Action>>, limit: nat, i: nat, n: nat, c: Machine.Conf)
    requires Machine.RulesOk(RulesOf(Loop())) && Midway(Loop(), finals, limit, [TOKEN], i, n, c)
    ensures Machine.StepsWithin(RulesOf(Loop()), finals, Start(INPUT), n, limit, c)
  {
    assert INPUT == [TOKEN] + [0];
  }
}
