/** Compression accepts exactly what it accepted before: a default reduce on a token that was an
    error leads to the same error before anything is shifted. */
module CompressionRuns {
  import opened Wrappers
  import opened Grammars
  import opened FirstSets
  import opened Closures
  import opened Automata
  import opened StackInvariant
  import opened Driver
  import opened Actions
  import opened Compress
  import opened Lookaheads
  import opened ActionLists
  import opened TableGen
  import opened Machine
  import opened Completeness

  // ---- Tokens that may follow on this very stack ----

  function After(g: Grammar, x: Item): seq<Symbol> {
    if x.rule < |g.rules| && x.dot <= |g.rules[x.rule].rhs| then g.rules[x.rule].rhs[x.dot..] else []
  }

  function TopOf(path: seq<nat>): nat
    requires path != []
  {
    path[|path| - 1]
  }

  /** Token `t` may come once `x` is complete, on the stack that `path` stands for: `x` goes back
      along the path to where it was brought in, and what brought it in lets `t` follow. */
  ghost predicate ValidIn(m: Analysed, n: nat, path: seq<nat>, x: Item, t: nat)
    requires Sized(m.g, m.an)
    decreases n
  {
    && path != [] && Holds(m, TopOf(path), x)
    && if x.dot > 0 then |path| >= 2 && n > 0 && ValidIn(m, n - 1, path[..|path| - 1], Item(x.rule, x.dot - 1), t)
       else (path == [0] && IsStartItem(m.g, x) && t == 0) || (n > 0 && exists y :: BroughtIn(m, n, path, y, x, t))
  }

  ghost predicate BroughtIn(m: Analysed, n: nat, path: seq<nat>, y: Item, x: Item, t: nat)
    requires Sized(m.g, m.an) && path != [] && n > 0
    decreases n, 0
  {
    && Holds(m, TopOf(path), y) && Spawns(m.g, y, x)
    && (t in FirstOfSeq(m.g, m.an, Rest(m.g, y)) || (AllLambda(m.g, m.an, Rest(m.g, y)) && ValidIn(m, n - 1, path, y, t)))
  }

  ghost predicate Valid(m: Analysed, path: seq<nat>, x: Item, t: nat)
    requires Sized(m.g, m.an)
  {
    exists n: nat :: ValidIn(m, n, path, x, t)
  }

  ghost predicate OnPath(m: Analysed, path: seq<nat>, majors: seq<nat>) {
    |path| == |majors| + 1 && IsPath(m.g, m.states, path, majors)
  }

  /** One step back along the path: the dot moves left, and follow sets are passed on. */
  lemma Retreat(m: Analysed, path: seq<nat>, majors: seq<nat>, x: Item)
    requires Wf(m) && OnPath(m, path, majors) && |path| >= 2 && Holds(m, TopOf(path), x) && x.dot > 0
    ensures OnPath(m, path[..|path| - 1], majors[..|majors| - 1]) && Holds(m, TopOf(path[..|path| - 1]), Item(x.rule, x.dot - 1))
    ensures x.rule < |m.g.rules| && x.dot <= |m.g.rules[x.rule].rhs| && Covers(m.g, m.g.rules[x.rule].rhs[x.dot - 1], majors[|majors| - 1])
    ensures Propagates(m.g, m.states, Config(path[|path| - 2], Item(x.rule, x.dot - 1)), Config(TopOf(path), x))
  {
    var i := |majors| - 1;
    PathInRange(m.g, m.an, m.states, path, majors, i);
    assert Edge(m.g, m.states, path[i], majors[i], path[i + 1]);
    StepBack(m.g, m.an, m.states, path[i], majors[i], path[i + 1], x);
    ShorterPath(m.g, m.states, path, majors);
    EdgePropagates(m, path[i], majors[i], path[i + 1], x);
  }

  lemma EdgePropagates(m: Analysed, from: nat, major: nat, to: nat, x: Item)
    requires Wf(m) && Edge(m.g, m.states, from, major, to) && Holds(m, to, x) && x.dot > 0
    ensures from < |m.states| && Propagates(m.g, m.states, Config(from, Item(x.rule, x.dot - 1)), Config(to, x))
  {
    DottedItem(m.g, m.an, m.states, to, x);
    var sh :| sh in m.states[from].shifts && Covers(m.g, sh.sym, major) && sh.target == to;
    ShiftFits(m.g, m.an, m.states, from, sh);
    hide Wf;
    assert x in Members(m.states[to].basis);
    var y :| y in m.states[from].closed.items && Before(m.g, y, sh.sym) && x == Advance(y);
    assert y == Item(x.rule, x.dot - 1);
  }

  /** What may follow on the stack is in the follow set. */
  lemma {:induction false} ValidFollows(m: Analysed, n: nat, path: seq<nat>, majors: seq<nat>, x: Item, t: nat)
    requires WellAnalysed(m) && OnPath(m, path, majors) && ValidIn(m, n, path, x, t)
    ensures Follows(m, TopOf(path), x, t)
    decreases n
  {
    hide IsAutomaton, IsPath, Follows, Propagates, FollowClosed, LambdaClosed, FirstClosed;
    if x.dot > 0 {
      Retreat(m, path, majors, x);
      ValidFollows(m, n - 1, path[..|path| - 1], majors[..|majors| - 1], Item(x.rule, x.dot - 1), t);
      FollowsPass(m, Config(path[|path| - 2], Item(x.rule, x.dot - 1)), Config(TopOf(path), x), t);
    } else if path == [0] && IsStartItem(m.g, x) && t == 0 {
      StartItem(m, x.rule);
    } else {
      var y :| BroughtIn(m, n, path, y, x, t);
      if t !in FirstOfSeq(m.g, m.an, Rest(m.g, y)) {
        ValidFollows(m, n - 1, path, majors, y, t);
      }
      SpawnFollows(m, TopOf(path), y, x, t);
    }
  }

  // ---- Tokens that may come next ----

  /** Token `t` may come right behind the dot of `x`, on this stack. */
  ghost predicate CanNext(m: Analysed, path: seq<nat>, x: Item, t: nat)
    requires Sized(m.g, m.an)
  {
    t in FirstOfSeq(m.g, m.an, After(m.g, x)) || (AllLambda(m.g, m.an, After(m.g, x)) && Valid(m, path, x, t))
  }

  ghost predicate NextAt(m: Analysed, path: seq<nat>, t: nat)
    requires Sized(m.g, m.an)
  {
    path != [] && exists x :: Holds(m, TopOf(path), x) && CanNext(m, path, x, t)
  }

  /** The symbols behind the dot of a configuration that brings in another. */
  lemma AfterSpawner(m: Analysed, y: Item, x: Item)
    requires Wf(m) && LambdaClosed(m.g, m.an) && FirstClosed(m.g, m.an) && Spawns(m.g, y, x)
    ensures FirstOfSeq(m.g, m.an, After(m.g, x)) <= FirstOfSeq(m.g, m.an, After(m.g, y))
    ensures AllLambda(m.g, m.an, After(m.g, x)) ==> FirstOfSeq(m.g, m.an, Rest(m.g, y)) <= FirstOfSeq(m.g, m.an, After(m.g, y))
    ensures AllLambda(m.g, m.an, After(m.g, x)) && AllLambda(m.g, m.an, Rest(m.g, y)) ==> AllLambda(m.g, m.an, After(m.g, y))
  {
    var rule, w := m.g.rules[x.rule], After(m.g, y);
    assert LambdaClosedAt(m.g, m.an, rule) && FirstClosedAt(m.g, m.an, rule);
    assert After(m.g, x) == rule.rhs;
    assert w[0] == Nonterminal(rule.lhs) && w[1..] == Rest(m.g, y);
    hide Wf;
  }

  /** A token that can begin what is behind a dot can begin what is behind the dot of the basis. */
  lemma {:induction false} FirstKernel(m: Analysed, k: nat, n: nat, x: Item, t: nat) returns (z: Item)
    requires Wf(m) && LambdaClosed(m.g, m.an) && FirstClosed(m.g, m.an) && k < |m.states|
    requires InClosureBy(m.g, m.states[k].basis, n, x) && t in FirstOfSeq(m.g, m.an, After(m.g, x))
    ensures z in m.states[k].basis && t in FirstOfSeq(m.g, m.an, After(m.g, z))
    decreases n
  {
    hide Wf, FirstOfSeq, LambdaClosed, FirstClosed;
    if n == 0 {
      z := x;
    } else if InClosureBy(m.g, m.states[k].basis, n - 1, x) {
      z := FirstKernel(m, k, n - 1, x, t);
    } else {
      var y :| InClosureBy(m.g, m.states[k].basis, n - 1, y) && Spawns(m.g, y, x);
      AfterSpawner(m, y, x);
      z := FirstKernel(m, k, n - 1, y, t);
    }
  }

  lemma FromBasis(m: Analysed, k: nat, x: Item, t: nat) returns (z: Item)
    requires Wf(m) && LambdaClosed(m.g, m.an) && FirstClosed(m.g, m.an) && 0 < k && Holds(m, k, x) && t in FirstOfSeq(m.g, m.an, After(m.g, x))
    ensures Holds(m, k, z) && z.dot > 0 && t in FirstOfSeq(m.g, m.an, After(m.g, z))
  {
    ItemFacts(m, k, x);
    assert InClosure(m.g, m.states[k].basis, x);
    var n: nat :| InClosureBy(m.g, m.states[k].basis, n, x);
    assert StateOk(m.g, m.an, m.states[k], k);
    z := FirstKernel(m, k, n, x, t);
    BasisInState(m, k, z);
  }

  /** If a token may come next, it may come next behind a dot inside a rule. */
  lemma {:induction false} ValidKernel(m: Analysed, n: nat, path: seq<nat>, x: Item, t: nat) returns (z: Item)
    requires Sized(m.g, m.an) && Wf(m) && LambdaClosed(m.g, m.an) && FirstClosed(m.g, m.an) && |path| >= 2 && TopOf(path) > 0
    requires ValidIn(m, n, path, x, t) && AllLambda(m.g, m.an, After(m.g, x))
    ensures Holds(m, TopOf(path), z) && z.dot > 0 && CanNext(m, path, z, t)
    decreases n
  {
    hide Wf, FirstOfSeq, LambdaClosed, FirstClosed, AllLambda;
    if x.dot > 0 {
      z := x;
      assert Valid(m, path, x, t);
    } else {
      var y :| BroughtIn(m, n, path, y, x, t);
      AfterSpawner(m, y, x);
      if t in FirstOfSeq(m.g, m.an, Rest(m.g, y)) {
        z := FromBasis(m, TopOf(path), y, t);
      } else {
        z := ValidKernel(m, n - 1, path, y, t);
      }
    }
  }

  /** Before a reduce: if `t` may come next behind the nonterminal, it may follow its rules. */
  lemma UndoReduce(m: Analysed, path: seq<nat>, majors: seq<nat>, t: nat, r: nat)
    requires Sized(m.g, m.an) && WellAnalysed(m) && OnPath(m, path, majors) && |path| >= 2 && NextAt(m, path, t)
    requires r < |m.g.rules| && majors[|majors| - 1] == m.g.rules[r].lhs
    ensures Valid(m, path[..|path| - 1], Item(r, 0), t)
  {
    hide Wf, WellAnalysed, OnPath, NextAt, Valid, CanNext;
    TopInside(m, path, majors);
    var z := Kernel(m, path, t);
    KernelBack(m, path, majors, z, t, r);
  }

  lemma TopInside(m: Analysed, path: seq<nat>, majors: seq<nat>)
    requires WellAnalysed(m) && OnPath(m, path, majors) && |path| >= 2
    ensures TopOf(path) > 0 && Wf(m) && LambdaClosed(m.g, m.an) && FirstClosed(m.g, m.an)
  {
    PathInRange(m.g, m.an, m.states, path, majors, |majors|);
  }

  lemma Kernel(m: Analysed, path: seq<nat>, t: nat) returns (z: Item)
    requires Sized(m.g, m.an) && Wf(m) && LambdaClosed(m.g, m.an) && FirstClosed(m.g, m.an) && |path| >= 2 && TopOf(path) > 0 && NextAt(m, path, t)
    ensures Holds(m, TopOf(path), z) && z.dot > 0 && CanNext(m, path, z, t)
  {
    hide Wf, FirstOfSeq, AllLambda, LambdaClosed, FirstClosed, Holds;
    var x :| Holds(m, TopOf(path), x) && CanNext(m, path, x, t);
    if t in FirstOfSeq(m.g, m.an, After(m.g, x)) {
      z := FromBasis(m, TopOf(path), x, t);
    } else {
      var n: nat :| ValidIn(m, n, path, x, t);
      z := ValidKernel(m, n, path, x, t);
    }
  }

  lemma Parts(m: Analysed)
    requires WellAnalysed(m)
    ensures Wf(m) && Sized(m.g, m.an) && LambdaClosed(m.g, m.an) && FirstClosed(m.g, m.an)
  {
  }

  lemma KernelBack(m: Analysed, path: seq<nat>, majors: seq<nat>, z: Item, t: nat, r: nat)
    requires WellAnalysed(m) && OnPath(m, path, majors) && |path| >= 2 && Holds(m, TopOf(path), z) && z.dot > 0 && CanNext(m, path, z, t)
    requires r < |m.g.rules| && majors[|majors| - 1] == m.g.rules[r].lhs
    ensures Valid(m, path[..|path| - 1], Item(r, 0), t)
  {
    Retreat(m, path, majors, z);
    var below, y := path[..|path| - 1], Item(z.rule, z.dot - 1);
    assert ValidRule(m.g, m.g.rules[r]) && ValidRule(m.g, m.g.rules[z.rule]);
    assert ValidSymbol(m.g, m.g.rules[z.rule].rhs[y.dot]);
    assert Spawns(m.g, y, Item(r, 0)) && Rest(m.g, y) == After(m.g, z);
    StateInClosure(m, TopOf(below), y, Item(r, 0));
    hide Wf, FirstOfSeq, AllLambda, LambdaClosed, FirstClosed, FollowClosed;
    if t in FirstOfSeq(m.g, m.an, After(m.g, z)) {
      assert BroughtIn(m, 1, below, y, Item(r, 0), t);
      assert ValidIn(m, 1, below, Item(r, 0), t);
    } else {
      var n: nat :| ValidIn(m, n, path, z, t);
      assert BroughtIn(m, n, below, y, Item(r, 0), t);
      assert ValidIn(m, n, below, Item(r, 0), t);
    }
  }

  lemma StateInClosure(m: Analysed, k: nat, y: Item, x: Item)
    requires Wf(m) && Holds(m, k, y) && Spawns(m.g, y, x)
    ensures Holds(m, k, x)
  {
    ItemFacts(m, k, y);
    SpawnInClosure(m.g, m.states[k].basis, y, x);
  }

  /** From the dot at the left end up the stack to the end of the rule. */
  lemma {:induction false} Climb(m: Analysed, path: seq<nat>, majors: seq<nat>, r: nat, d: nat, t: nat)
    requires Sized(m.g, m.an) && Wf(m) && OnPath(m, path, majors) && d < |path| && Holds(m, TopOf(path), Item(r, d)) && Valid(m, path[..|path| - d], Item(r, 0), t)
    ensures Valid(m, path, Item(r, d), t)
    decreases d
  {
    hide Wf, IsPath, Propagates, Holds;
    if d == 0 {
      assert path[..|path|] == path;
    } else {
      Retreat(m, path, majors, Item(r, d));
      var below := path[..|path| - 1];
      assert below[..|below| - (d - 1)] == path[..|path| - d];
      Climb(m, below, majors[..|majors| - 1], r, d - 1, t);
      var n: nat :| ValidIn(m, n, below, Item(r, d - 1), t);
      assert ValidIn(m, n + 1, path, Item(r, d), t);
    }
  }

  /** A complete rule that `t` may follow lets `t` come next. */
  lemma CompleteNext(m: Analysed, path: seq<nat>, majors: seq<nat>, r: nat, t: nat)
    requires Sized(m.g, m.an) && WellAnalysed(m) && OnPath(m, path, majors) && r < |m.g.rules| && |m.g.rules[r].rhs| < |path|
    requires Holds(m, TopOf(path), Item(r, |m.g.rules[r].rhs|)) && Valid(m, path[..|path| - |m.g.rules[r].rhs|], Item(r, 0), t)
    ensures NextAt(m, path, t) && Follows(m, TopOf(path), Item(r, |m.g.rules[r].rhs|), t)
  {
    hide *;
    Parts(m);
    Climb(m, path, majors, r, |m.g.rules[r].rhs|, t);
    ValidMeans(m, path, majors, Item(r, |m.g.rules[r].rhs|), t);
  }

  lemma ValidMeans(m: Analysed, path: seq<nat>, majors: seq<nat>, x: Item, t: nat)
    requires Sized(m.g, m.an) && WellAnalysed(m) && OnPath(m, path, majors) && Valid(m, path, x, t)
    requires x.rule < |m.g.rules| && x.dot == |m.g.rules[x.rule].rhs|
    ensures NextAt(m, path, t) && Follows(m, TopOf(path), x, t)
  {
    hide Wf, WellAnalysed, OnPath, Follows, FirstOfSeq;
    var n: nat :| ValidIn(m, n, path, x, t);
    ValidFollows(m, n, path, majors, x, t);
    assert After(m.g, x) == [] && AllLambda(m.g, m.an, After(m.g, x));
    hide ValidIn, AllLambda, Holds;
    assert CanNext(m, path, x, t);
  }

  /** A token that can be shifted may come next. */
  lemma ShiftNext(m: Analysed, path: seq<nat>, t: nat, to: nat)
    requires Wf(m) && path != [] && Edge(m.g, m.states, TopOf(path), t, to) && t < m.g.nterminal
    ensures NextAt(m, path, t)
  {
    var k := TopOf(path);
    var sh :| sh in m.states[k].shifts && Covers(m.g, sh.sym, t) && sh.target == to;
    ShiftFits(m.g, m.an, m.states, k, sh);
    var y :| y in m.states[k].closed.items && Before(m.g, y, sh.sym);
    assert After(m.g, y)[0] == sh.sym;
    assert t in FirstOf(m.g, m.an, sh.sym) by { CoverFirst(m, sh.sym, t); }
    hide Wf;
    assert CanNext(m, path, y, t);
  }

  lemma CoverFirst(m: Analysed, sym: Symbol, t: nat)
    requires Sized(m.g, m.an) && Covers(m.g, sym, t) && t < m.g.nterminal
    ensures t in FirstOf(m.g, m.an, sym)
  {
  }

  // ---- What the compressed lists say ----

  lemma MoveMeant(m: Analysed, k: nat, c: Compressed, t: nat)
    requires CompressedOk(m, k, c) && t != m.g.nsymbol && Lookup(c.aps, t, m.g.nsymbol).Some?
    ensures var move := Lookup(c.aps, t, m.g.nsymbol).value;
      || Entitled(m, k, t, move.kind, move.arg)
      || (move.kind == REDUCE && Ends(m.g, m.states, k, move.arg) && !IsStartRule(m.g, move.arg))
  {
    hide Entitled, Ends, Deterministic;
    LiveOnMembers(c.aps, t);
    LiveOnMembers(c.aps, m.g.nsymbol);
    var a := if LiveOn(c.aps, t) != [] then LiveOn(c.aps, t)[0] else LiveOn(c.aps, m.g.nsymbol)[0];
    assert a in if LiveOn(c.aps, t) != [] then LiveOn(c.aps, t) else LiveOn(c.aps, m.g.nsymbol);
    assert Meant(m, k, m.g.nsymbol, a);
  }

  lemma GotoMeant(m: Analysed, k: nat, c: Compressed, a: nat)
    requires CompressedOk(m, k, c) && a != m.g.nsymbol && Goto(c.aps, a).Some?
    ensures Entitled(m, k, a, Goto(c.aps, a).value.kind, Goto(c.aps, a).value.arg)
  {
    hide Entitled, Ends, Deterministic;
    LiveOnMembers(c.aps, a);
    var x := LiveOn(c.aps, a)[0];
    assert x in LiveOn(c.aps, a);
    assert Meant(m, k, m.g.nsymbol, x);
  }

  function Plain(path: seq<nat>): (r: seq<Machine.Top>)
    ensures |r| == |path| && forall i :: 0 <= i < |path| ==> r[i] == AtState(path[i])
  {
    seq(|path|, i requires 0 <= i < |path| => AtState(path[i]))
  }

  /** The lists of all states before and after defaults were chosen. */
  ghost predicate Passed(m: Analysed, lists: seq<seq<Action>>, cs: seq<Compressed>, after: seq<seq<Action>>) {
    && WellAnalysed(m) && RulesOk(RulesOf(m.g)) && |lists| == |cs| == |after| == |m.states|
    && forall k :: 0 <= k < |cs| ==> Resolved(m, k, lists[k]) && CompressedOk(m, k, cs[k]) && CompressedFrom(m, lists[k], cs[k]) && after[k] == cs[k].aps
  }

  /** A turn of the compressed machine, told by what it means. */
  lemma TurnMeant(m: Analysed, lists: seq<seq<Action>>, cs: seq<Compressed>, after: seq<seq<Action>>, path: seq<nat>, majors: seq<nat>, input: seq<nat>)
    returns (move: Move)
    requires Passed(m, lists, cs, after) && OnPath(m, path, majors) && InputOk(RulesOf(m.g), input) && input != []
    requires var o := Turn(RulesOf(m.g), after, Conf(Plain(path), input)); o.Next? || o == Accept
    ensures TopOf(path) < |m.states| && Lookup(after[TopOf(path)], input[0], m.g.nsymbol) == Some(move)
    ensures move.kind == SHIFT || move.kind == REDUCE
    ensures move.kind == SHIFT ==> Entitled(m, TopOf(path), input[0], SHIFT, move.arg)
    ensures move.kind == REDUCE ==> Ends(m.g, m.states, TopOf(path), move.arg) && (IsStartRule(m.g, move.arg) ==> input[0] == 0)
    ensures Turn(RulesOf(m.g), after, Conf(Plain(path), input)) == Obey(RulesOf(m.g), after, Conf(Plain(path), input), Some(move))
  {
    var k, t := TopOf(path), input[0];
    assert Plain(path)[|path| - 1] == AtState(k);
    assert m.g.nterminal < m.g.nsymbol;
    move := Lookup(after[k], t, m.g.nsymbol).value;
    hide WellAnalysed, Resolved, CompressedOk, CompressedFrom, Entitled, Lookup, Ends, IsPath;
    MoveMeant(m, k, cs[k], t);
    if move.kind == REDUCE && Entitled(m, k, t, REDUCE, move.arg) { EntitledReduce(m, k, t, move.arg); }
    NoShiftReduceEntitled(m, k, t, move);
  }

  lemma EntitledReduce(m: Analysed, k: nat, t: nat, r: nat)
    requires WellAnalysed(m) && Entitled(m, k, t, REDUCE, r)
    ensures Ends(m.g, m.states, k, r) && (IsStartRule(m.g, r) ==> t == 0)
  {
    ReduceEnds(m, k, t, r);
  }

  lemma NoShiftReduceEntitled(m: Analysed, k: nat, t: nat, move: Move)
    ensures Entitled(m, k, t, move.kind, move.arg) ==> move.kind == SHIFT || move.kind == REDUCE || move.kind == ACCEPT
  {
  }

  // ---- One turn, along the path ----

  /** A shift extends the path. */
  lemma ShiftPath(m: Analysed, path: seq<nat>, majors: seq<nat>, t: nat, to: nat)
    requires path != [] && OnPath(m, path, majors) && Edge(m.g, m.states, TopOf(path), t, to)
    ensures OnPath(m, path + [to], majors + [t]) && Plain(path + [to]) == Plain(path) + [AtState(to)]
  {
    LongerPath(m.g, m.states, path, majors, t, to);
  }

  /** Popping a complete rule leaves the path it was started on. */
  lemma PopRule(m: Analysed, path: seq<nat>, majors: seq<nat>, r: nat)
    requires Wf(m) && OnPath(m, path, majors) && Ends(m.g, m.states, TopOf(path), r)
    ensures |m.g.rules[r].rhs| < |path| && Holds(m, TopOf(path), Item(r, |m.g.rules[r].rhs|))
    ensures var n := |path| - |m.g.rules[r].rhs|;
      OnPath(m, path[..n], majors[..n - 1]) && Plain(path)[..n] == Plain(path[..n]) && TopOf(path[..n]) < |m.states|
  {
    RuleOnStack(m.g, m.an, m.states, path, majors, Item(r, |m.g.rules[r].rhs|));
    PrefixPath(m.g, m.states, path, majors, |majors| - |m.g.rules[r].rhs|);
    hide IsPath, IsAutomaton;
  }

  /** What the goto after a reduce means. */
  lemma GotoShifts(m: Analysed, lists: seq<seq<Action>>, cs: seq<Compressed>, after: seq<seq<Action>>, b: nat, a: nat)
    requires Passed(m, lists, cs, after) && b < |m.states| && m.g.nterminal <= a < m.g.nsymbol && Goto(after[b], a).Some?
    ensures var move := Goto(after[b], a).value;
      && Entitled(m, b, a, move.kind, move.arg) && Goto(lists[b], a) == Some(move)
      && (move.kind == SHIFT || (move.kind == ACCEPT && b == 0 && a == m.g.start))
  {
    hide WellAnalysed, Resolved, CompressedOk, Entitled;
    var move := Goto(after[b], a).value;
    GotoMeant(m, b, cs[b], a);
    GotoKinds(m, b, a, move);
    EntitledListed(m, b, lists[b], a, move.kind, move.arg);
    assert CompressedFrom(m, lists[b], cs[b]);
  }

  lemma GotoKinds(m: Analysed, b: nat, a: nat, move: Move)
    requires WellAnalysed(m) && m.g.nterminal <= a && Entitled(m, b, a, move.kind, move.arg)
    ensures move.kind == SHIFT || (move.kind == ACCEPT && b == 0 && a == m.g.start)
  {
    if move.kind == REDUCE { ReduceEnds(m, b, a, move.arg); }
  }

  lemma EntitledListed(m: Analysed, k: nat, aps: seq<Action>, sp: nat, kind: Kind, arg: nat)
    requires Resolved(m, k, aps) && Entitled(m, k, sp, kind, arg)
    ensures LiveOn(aps, sp) != []
  {
    hide Deterministic;
  }

  /** When the compressed machine goes on to accept, the next token may come next on this stack, and
      the uncompressed list had an action on it. */
  lemma {:induction false} GoesOn(m: Analysed, lists: seq<seq<Action>>, cs: seq<Compressed>, after: seq<seq<Action>>, path: seq<nat>, majors: seq<nat>, input: seq<nat>, n: nat, h: nat)
    requires Sized(m.g, m.an) && Passed(m, lists, cs, after) && OnPath(m, path, majors) && InputOk(RulesOf(m.g), input) && input != [] && path != []
    requires AcceptsWithin(RulesOf(m.g), after, Conf(Plain(path), input), n, h)
    ensures NextAt(m, path, input[0]) && TopOf(path) < |m.states| && LiveOn(lists[TopOf(path)], input[0]) != []
    decreases n
  {
    hide WellAnalysed, Resolved, CompressedOk, CompressedFrom, Entitled, Lookup, Ends, OnPath, Turn, Obey, Goto, NextAt, LiveOn;
    var k, t := TopOf(path), input[0];
    var move := TurnMeant(m, lists, cs, after, path, majors, input);
    if move.kind == SHIFT {
      ShiftGoesOn(m, path, t, move.arg);
      EntitledListed(m, k, lists[k], t, SHIFT, move.arg);
    } else {
      var to, accepts := AfterReduce(m, lists, cs, after, path, majors, input, move.arg);
      var below := path[..|path| - |m.g.rules[move.arg].rhs|];
      if !accepts {
        GoesOn(m, lists, cs, after, below + [to], majors[..|below| - 1] + [m.g.rules[move.arg].lhs], input, n - 1, h);
      }
      ReduceGoesOn(m, path, majors, t, move.arg, to, accepts);
      EntitledListed(m, k, lists[k], t, REDUCE, move.arg);
    }
  }

  lemma ShiftGoesOn(m: Analysed, path: seq<nat>, t: nat, to: nat)
    requires WellAnalysed(m) && path != [] && Entitled(m, TopOf(path), t, SHIFT, to) && t < m.g.nterminal
    ensures NextAt(m, path, t)
  {
    ShiftNext(m, path, t, to);
  }

  /** Where a reduce leads: to a longer path over the nonterminal, or to the end. */
  lemma AfterReduce(m: Analysed, lists: seq<seq<Action>>, cs: seq<Compressed>, after: seq<seq<Action>>, path: seq<nat>, majors: seq<nat>, input: seq<nat>, r: nat)
    returns (to: nat, accepts: bool)
    requires Passed(m, lists, cs, after) && OnPath(m, path, majors) && input != [] && Ends(m.g, m.states, TopOf(path), r)
    requires var o := Obey(RulesOf(m.g), after, Conf(Plain(path), input), Some(Move(REDUCE, r))); o.Next? || o == Accept
    ensures r < |m.g.rules| && |m.g.rules[r].rhs| < |path| == |majors| + 1
    ensures var o := Obey(RulesOf(m.g), after, Conf(Plain(path), input), Some(Move(REDUCE, r)));
      var below := path[..|path| - |m.g.rules[r].rhs|];
      && OnPath(m, below, majors[..|below| - 1])
      && (accepts ==> o == Accept && IsStartRule(m.g, r) && below == [0])
      && (!accepts ==> OnPath(m, below + [to], majors[..|below| - 1] + [m.g.rules[r].lhs]) && o == Next(Conf(Plain(below + [to]), input)))
    ensures Obey(RulesOf(m.g), lists, Conf(Plain(path), input), Some(Move(REDUCE, r))) == Obey(RulesOf(m.g), after, Conf(Plain(path), input), Some(Move(REDUCE, r)))
  {
    hide Passed, OnPath, Obey, Plain, RulesOf, Ends, Entitled;
    var move := ReduceMove(m, lists, cs, after, path, majors, input, r);
    var below := path[..|path| - |m.g.rules[r].rhs|];
    accepts := move.kind == ACCEPT;
    if accepts {
      to := 0;
      PassedBottom(m, lists, cs, after, below, majors[..|below| - 1]);
    } else {
      to := move.arg;
      GotoPath(m, below, majors[..|below| - 1], m.g.rules[r].lhs, to);
    }
  }

  lemma PassedBottom(m: Analysed, lists: seq<seq<Action>>, cs: seq<Compressed>, after: seq<seq<Action>>, path: seq<nat>, majors: seq<nat>)
    requires Passed(m, lists, cs, after) && OnPath(m, path, majors) && TopOf(path) == 0
    ensures path == [0]
  {
    hide WellAnalysed, Resolved, CompressedOk, CompressedFrom;
    OnlyBottom(m, path, majors);
  }

  /** The move on the left-hand side, the same before and after, and what obeying the reduce is. */
  lemma ReduceMove(m: Analysed, lists: seq<seq<Action>>, cs: seq<Compressed>, after: seq<seq<Action>>, path: seq<nat>, majors: seq<nat>, input: seq<nat>, r: nat)
    returns (move: Move)
    requires Passed(m, lists, cs, after) && OnPath(m, path, majors) && input != [] && Ends(m.g, m.states, TopOf(path), r)
    requires var o := Obey(RulesOf(m.g), after, Conf(Plain(path), input), Some(Move(REDUCE, r))); o.Next? || o == Accept
    ensures RulesOk(RulesOf(m.g)) && r < |m.g.rules| && |m.g.rules[r].rhs| < |path| == |majors| + 1
    ensures var below := path[..|path| - |m.g.rules[r].rhs|];
      && OnPath(m, below, majors[..|below| - 1]) && Entitled(m, TopOf(below), m.g.rules[r].lhs, move.kind, move.arg)
      && Obey(RulesOf(m.g), after, Conf(Plain(path), input), Some(Move(REDUCE, r))) == Landed(Plain(below), input, Some(move))
      && Obey(RulesOf(m.g), lists, Conf(Plain(path), input), Some(Move(REDUCE, r))) == Landed(Plain(below), input, Some(move))
      && (move.kind == SHIFT || (move.kind == ACCEPT && TopOf(below) == 0 && IsStartRule(m.g, r)))
  {
    RuleFacts(m, lists, cs, after, path, majors, r);
    hide Passed, OnPath, Obey, Plain, RulesOf, Ends, Entitled, Goto;
    var below := path[..|path| - |m.g.rules[r].rhs|];
    var b, a := TopOf(below), m.g.rules[r].lhs;
    ObeyReduce(m, lists, path, r, Move(REDUCE, r), input);
    ObeyReduce(m, after, path, r, Move(REDUCE, r), input);
    GotoShifts(m, lists, cs, after, b, a);
    move := Goto(after[b], a).value;
  }

  lemma RuleFacts(m: Analysed, lists: seq<seq<Action>>, cs: seq<Compressed>, after: seq<seq<Action>>, path: seq<nat>, majors: seq<nat>, r: nat)
    requires Passed(m, lists, cs, after) && OnPath(m, path, majors) && Ends(m.g, m.states, TopOf(path), r)
    ensures RulesOk(RulesOf(m.g)) && |lists| == |after| == |m.states| && r < |m.g.rules| && |m.g.rules[r].rhs| < |path| == |majors| + 1
    ensures var below := path[..|path| - |m.g.rules[r].rhs|]; OnPath(m, below, majors[..|below| - 1]) && TopOf(below) < |m.states|
    ensures m.g.nterminal <= m.g.rules[r].lhs < m.g.nsymbol
  {
    PopRule(m, path, majors, r);
    assert ValidRule(m.g, m.g.rules[r]);
    hide Resolved, CompressedOk, CompressedFrom, IsPath, IsAutomaton;
  }

  lemma GotoPath(m: Analysed, path: seq<nat>, majors: seq<nat>, a: nat, to: nat)
    requires OnPath(m, path, majors) && Entitled(m, TopOf(path), a, SHIFT, to)
    ensures OnPath(m, path + [to], majors + [a]) && Plain(path + [to]) == Plain(path) + [AtState(to)]
  {
    ShiftPath(m, path, majors, a, to);
  }

  /** Obeying a reduce: pop the rule, then land on what the goto says. */
  lemma ObeyReduce(m: Analysed, rows: seq<seq<Action>>, path: seq<nat>, r: nat, move: Move, input: seq<nat>)
    requires RulesOk(RulesOf(m.g)) && r < |m.g.rules| && |m.g.rules[r].rhs| < |path| && move == Move(REDUCE, r) && input != []
    requires var below := path[..|path| - |m.g.rules[r].rhs|]; TopOf(below) < |rows|
    ensures var below := path[..|path| - |m.g.rules[r].rhs|];
      Obey(RulesOf(m.g), rows, Conf(Plain(path), input), Some(move)) == Landed(Plain(below), input, Goto(rows[TopOf(below)], m.g.rules[r].lhs))
  {
    var below := path[..|path| - |m.g.rules[r].rhs|];
    assert Plain(path)[..|below|] == Plain(below);
    assert Plain(below)[|below| - 1] == AtState(TopOf(below));
    hide Goto, Landed;
  }

  lemma OnlyBottom(m: Analysed, path: seq<nat>, majors: seq<nat>)
    requires WellAnalysed(m) && OnPath(m, path, majors) && TopOf(path) == 0
    ensures path == [0]
  {
    PathInRange(m.g, m.an, m.states, path, majors, |majors|);
  }

  lemma ReduceGoesOn(m: Analysed, path: seq<nat>, majors: seq<nat>, t: nat, r: nat, to: nat, accepts: bool)
    requires Sized(m.g, m.an) && WellAnalysed(m) && OnPath(m, path, majors) && Ends(m.g, m.states, TopOf(path), r) && |m.g.rules[r].rhs| < |path|
    requires var below := path[..|path| - |m.g.rules[r].rhs|];
      if accepts then below == [0] && IsStartRule(m.g, r) && t == 0
      else OnPath(m, below + [to], majors[..|below| - 1] + [m.g.rules[r].lhs]) && NextAt(m, below + [to], t)
    ensures NextAt(m, path, t) && Entitled(m, TopOf(path), t, REDUCE, r)
  {
    Parts(m);
    PopRule(m, path, majors, r);
    hide Wf, WellAnalysed, NextAt, OnPath, Edge, ValidIn, Entitled, Ends, Follows, IsStartRule;
    var below := path[..|path| - |m.g.rules[r].rhs|];
    if accepts {
      StartValid(m, r);
    } else {
      UndoReduce(m, below + [to], majors[..|below| - 1] + [m.g.rules[r].lhs], t, r);
      assert (below + [to])[..|below + [to]| - 1] == below;
    }
    CompleteNext(m, path, majors, r, t);
    FollowsEntitled(m, TopOf(path), r, t);
  }

  lemma StartValid(m: Analysed, r: nat)
    requires Sized(m.g, m.an) && WellAnalysed(m) && IsStartRule(m.g, r)
    ensures Valid(m, [0], Item(r, 0), 0)
  {
    StartItem(m, r);
    assert ValidIn(m, 0, [0], Item(r, 0), 0);
  }

  lemma FollowsEntitled(m: Analysed, k: nat, r: nat, t: nat)
    requires r < |m.g.rules| && Follows(m, k, Item(r, |m.g.rules[r].rhs|), t)
    ensures Entitled(m, k, t, REDUCE, r)
  {
    var c: nat :| c < |m.cfgs| && c < |m.fws| && m.cfgs[c] == Config(k, Item(r, |m.g.rules[r].rhs|)) && t in m.fws[c];
    assert ReducesAt(m, k, r, t, c);
  }

  /** Whatever the compressed machine accepts from a stack along a path, the uncompressed one does. */
  lemma {:induction false} Converse(m: Analysed, lists: seq<seq<Action>>, cs: seq<Compressed>, after: seq<seq<Action>>, path: seq<nat>, majors: seq<nat>, input: seq<nat>, n: nat, h: nat)
    requires Sized(m.g, m.an) && Passed(m, lists, cs, after) && OnPath(m, path, majors) && InputOk(RulesOf(m.g), input) && input != [] && path != []
    requires AcceptsWithin(RulesOf(m.g), after, Conf(Plain(path), input), n, h)
    ensures AcceptsWithin(RulesOf(m.g), lists, Conf(Plain(path), input), n, h)
    decreases n
  {
    hide WellAnalysed, Resolved, CompressedOk, CompressedFrom, Entitled, Lookup, Ends, OnPath, Turn, Obey, Goto, NextAt, LiveOn;
    var k, t := TopOf(path), input[0];
    var move := TurnMeant(m, lists, cs, after, path, majors, input);
    GoesOn(m, lists, cs, after, path, majors, input, n, h);
    SameTurn(m, lists, cs, after, path, majors, input, move);
    if move.kind == SHIFT {
      ShiftObeyed(m, after, path, majors, input, move.arg);
      if input[1..] != [] {
        Converse(m, lists, cs, after, path + [move.arg], majors + [t], input[1..], n - 1, h);
      } else {
        NothingLeft(RulesOf(m.g), after, Conf(Plain(path + [move.arg]), input[1..]), n - 1, h);
      }
    } else {
      var to, accepts := AfterReduce(m, lists, cs, after, path, majors, input, move.arg);
      var below := path[..|path| - |m.g.rules[move.arg].rhs|];
      if !accepts {
        Converse(m, lists, cs, after, below + [to], majors[..|below| - 1] + [m.g.rules[move.arg].lhs], input, n - 1, h);
      }
    }
  }

  lemma NothingLeft(G: Rules, rows: seq<seq<Action>>, c: Conf, n: nat, h: nat)
    requires RulesOk(G) && c.input == []
    ensures !AcceptsWithin(G, rows, c, n, h)
  {
  }

  lemma ShiftObeyed(m: Analysed, after: seq<seq<Action>>, path: seq<nat>, majors: seq<nat>, input: seq<nat>, to: nat)
    requires RulesOk(RulesOf(m.g)) && OnPath(m, path, majors) && input != [] && Entitled(m, TopOf(path), input[0], SHIFT, to)
    ensures OnPath(m, path + [to], majors + [input[0]])
    ensures Obey(RulesOf(m.g), after, Conf(Plain(path), input), Some(Move(SHIFT, to))) == Next(Conf(Plain(path + [to]), input[1..]))
  {
    ShiftPath(m, path, majors, input[0], to);
  }

  /** Both machines take the same turn. */
  lemma SameTurn(m: Analysed, lists: seq<seq<Action>>, cs: seq<Compressed>, after: seq<seq<Action>>, path: seq<nat>, majors: seq<nat>, input: seq<nat>, move: Move)
    requires Passed(m, lists, cs, after) && OnPath(m, path, majors) && InputOk(RulesOf(m.g), input) && input != []
    requires var k := TopOf(path);
      k < |m.states| && LiveOn(lists[k], input[0]) != [] && Lookup(after[k], input[0], m.g.nsymbol) == Some(move)
    requires move.kind == SHIFT || (move.kind == REDUCE && Ends(m.g, m.states, TopOf(path), move.arg))
    requires var o := Turn(RulesOf(m.g), after, Conf(Plain(path), input)); o.Next? || o == Accept
    ensures Turn(RulesOf(m.g), lists, Conf(Plain(path), input)) == Turn(RulesOf(m.g), after, Conf(Plain(path), input))
  {
    var k, t := TopOf(path), input[0];
    assert CompressedFrom(m, lists[k], cs[k]);
    assert RulesOk(RulesOf(m.g)) && |lists| == |after| == |m.states|;
    SameLookup(m, lists[k], after[k], t, move);
    hide Passed, Ends, OnPath, Obey, CompressedFrom, Plain, RulesOf, LiveOn, Lookup, Turn;
    TurnObeys(m, lists, path, input, move);
    TurnObeys(m, after, path, input, move);
    if move.kind == REDUCE {
      var to, accepts := AfterReduce(m, lists, cs, after, path, majors, input, move.arg);
    } else {
      ShiftSame(RulesOf(m.g), lists, after, Conf(Plain(path), input), move);
    }
  }

  lemma TurnObeys(m: Analysed, rows: seq<seq<Action>>, path: seq<nat>, input: seq<nat>, move: Move)
    requires RulesOk(RulesOf(m.g)) && path != [] && input != [] && TopOf(path) < |rows|
    requires Lookup(rows[TopOf(path)], input[0], m.g.nsymbol) == Some(move)
    ensures Turn(RulesOf(m.g), rows, Conf(Plain(path), input)) == Obey(RulesOf(m.g), rows, Conf(Plain(path), input), Some(move))
  {
    assert Plain(path)[|path| - 1] == AtState(TopOf(path));
    hide Lookup, Obey;
  }

  lemma SameLookup(m: Analysed, before: seq<Action>, after: seq<Action>, t: nat, move: Move)
    requires KeepsMoves(RulesOf(m.g), before, after) && t < m.g.nterminal && LiveOn(before, t) != [] && Lookup(after, t, m.g.nsymbol) == Some(move)
    ensures Lookup(before, t, m.g.nsymbol) == Some(move)
  {
  }

  lemma ShiftSame(G: Rules, lists: seq<seq<Action>>, after: seq<seq<Action>>, c: Conf, move: Move)
    requires RulesOk(G) && c.input != [] && move.kind == SHIFT
    ensures Obey(G, lists, c, Some(move)) == Obey(G, after, c, Some(move))
  {
  }

  // ---- Both passes ----

  lemma AutosMatch(m: Analysed, cs: seq<Compressed>, after: seq<seq<Action>>)
    requires Wf(m) && |m.states| == |cs| == |after| && RulesOk(RulesOf(m.g))
    requires forall k :: 0 <= k < |cs| ==> after[k] == cs[k].aps && CompressedOk(m, k, cs[k])
    requires forall k :: 0 <= k < |cs| && cs[k].auto ==> cs[k].dflt.Some? && OnlyReduces(RulesOf(m.g), cs[k].aps, cs[k].dflt.value)
    ensures 0 !in AutoMap(cs) && AutosOk(RulesOf(m.g), after, AutoMap(cs)) && Unfused(after)
  {
    forall r: nat ensures !Forced(m.g, m.states, 0, r) { NotForcedAtStart(m, r); }
    assert |cs| > 0 ==> CompressedOk(m, 0, cs[0]);
    hide Wf, OnlyReduces, Deterministic;
    forall s | s in AutoMap(cs)
      ensures s < |after| && AutoMap(cs)[s] < |m.g.rules| && m.g.rules[AutoMap(cs)[s]].rhs != [] && OnlyReduces(RulesOf(m.g), after[s], AutoMap(cs)[s])
    {
      assert CompressedOk(m, s, cs[s]);
    }
    forall k, a | 0 <= k < |after| && a in after[k] && Live(a) ensures a.kind != SHIFTREDUCE {
      assert CompressedOk(m, k, cs[k]) && Meant(m, k, m.g.nsymbol, a);
    }
  }

  /** State 0 holds no configuration with a symbol before the dot. */
  lemma NotForcedAtStart(m: Analysed, r: nat)
    requires Wf(m)
    ensures !Forced(m.g, m.states, 0, r)
  {
    if Forced(m.g, m.states, 0, r) {
      DottedItem(m.g, m.an, m.states, 0, Item(r, |m.g.rules[r].rhs|));
    }
  }

  /** Parsing from the lists `before` accepts the same token strings as parsing from `after`, in as
      many turns and with the same stack. */
  ghost predicate AcceptsAlike(g: Grammar, before: seq<seq<Action>>, after: seq<seq<Action>>)
    requires RulesOk(RulesOf(g))
  {
    forall input: seq<nat>, n: nat, h: nat :: InputOk(RulesOf(g), input) && input != [] ==> AlikeOn(g, before, after, input, n, h)
  }

  ghost predicate AlikeOn(g: Grammar, before: seq<seq<Action>>, after: seq<seq<Action>>, input: seq<nat>, n: nat, h: nat)
    requires RulesOk(RulesOf(g))
  {
    AcceptsWithin(RulesOf(g), before, Start(input), n, h) <==> AcceptsWithin(RulesOf(g), after, Start(input), n, h)
  }

  /** Runs from the lists `before` that meet no error are runs from `after`. */
  ghost predicate StepsKept(g: Grammar, before: seq<seq<Action>>, after: seq<seq<Action>>)
    requires RulesOk(RulesOf(g))
  {
    forall input: seq<nat>, n: nat, h: nat, e: Conf :: InputOk(RulesOf(g), input) && StepsWithin(RulesOf(g), before, Start(input), n, h, e) ==>
      StepKept(g, after, input, n, h, e.input)
  }

  ghost predicate StepKept(g: Grammar, after: seq<seq<Action>>, input: seq<nat>, n: nat, h: nat, left: seq<nat>)
    requires RulesOk(RulesOf(g))
  {
    exists e: Conf :: StepsWithin(RulesOf(g), after, Start(input), n, h, e) && e.input == left
  }

  lemma PassesKeepSteps(m: Analysed, lists: seq<seq<Action>>, cs: seq<Compressed>, after: seq<seq<Action>>, finals: seq<seq<Action>>)
    requires Passed(m, lists, cs, after) && |finals| == |cs|
    requires forall k :: 0 <= k < |cs| ==> finals[k] == Fused(cs[k].aps, AutoMap(cs))
    ensures StepsKept(m.g, lists, finals)
  {
    var G, auto := RulesOf(m.g), AutoMap(cs);
    AutosMatch(m, cs, after);
    assert finals == FuseRows(after, auto);
    forall k | 0 <= k < |lists| ensures KeepsMoves(G, lists[k], after[k]) { assert CompressedFrom(m, lists[k], cs[k]); }
    hide Passed, StepsWithin, AutosOk, Unfused, KeepsMoves, RulesOf, AutoMap;
    forall input: seq<nat>, n: nat, h: nat, e: Conf | InputOk(G, input) && StepsWithin(G, lists, Start(input), n, h, e)
      ensures StepKept(m.g, finals, input, n, h, e.input)
    {
      var c := Start(input);
      DefaultsKeepSteps(G, lists, after, c, n, h, e);
      FusionKeepsSteps(G, after, auto, c, n, h, e);
      StartUnfused(c, auto);
      FusedInput(e, auto);
    }
  }

  lemma FusedInput(c: Conf, auto: map<nat, nat>)
    ensures FuseConf(c, auto).input == c.input
  {
  }

  lemma PassesAcceptAlike(m: Analysed, lists: seq<seq<Action>>, cs: seq<Compressed>, after: seq<seq<Action>>, finals: seq<seq<Action>>)
    requires Passed(m, lists, cs, after) && |finals| == |cs|
    requires forall k :: 0 <= k < |cs| ==> finals[k] == Fused(cs[k].aps, AutoMap(cs))
    ensures AcceptsAlike(m.g, lists, finals)
  {
    var G, auto := RulesOf(m.g), AutoMap(cs);
    AutosMatch(m, cs, after);
    assert finals == FuseRows(after, auto);
    forall k | 0 <= k < |lists| ensures KeepsMoves(G, lists[k], after[k]) { assert CompressedFrom(m, lists[k], cs[k]); }
    assert Sized(m.g, m.an);
    StartPath(m);
    hide Passed, AcceptsWithin, AutosOk, Unfused, KeepsMoves, OnPath, RulesOf, AutoMap;
    forall input: seq<nat>, n: nat, h: nat | InputOk(G, input) && input != [] ensures AlikeOn(m.g, lists, finals, input, n, h) {
      var c := Start(input);
      assert Plain([0]) == [AtState(0)];
      FusionKeepsAccepting(G, after, auto, c, n, h);
      StartUnfused(c, auto);
      if AcceptsWithin(G, lists, c, n, h) { DefaultsKeepAccepting(G, lists, after, c, n, h); }
      if AcceptsWithin(G, after, c, n, h) { Converse(m, lists, cs, after, [0], [], input, n, h); }
    }
  }

  lemma StartUnfused(c: Conf, auto: map<nat, nat>)
    requires c.stack == [AtState(0)] && 0 !in auto
    ensures FuseConf(c, auto) == c
  {
  }

  lemma StartPath(m: Analysed)
    ensures OnPath(m, [0], [])
  {
  }

  // ---- What the passes leave, entry by entry ----

  /** State `k` does nothing but reduce by `r`, which is no start rule. */
  ghost predicate ReducesOnly(m: Analysed, aps: seq<Action>, r: nat) {
    r !in StartRules(m.g) && Count(aps, r) > 0 && OnlyReduce(aps, r)
  }

  /** The auto-reduce states are those that only reduce by one rule; the others keep their number. */
  ghost predicate AutosExact(m: Analysed, lists: seq<seq<Action>>, auto: map<nat, nat>) {
    && (forall k :: k in auto ==> k < |lists| && ReducesOnly(m, lists[k], auto[k]))
    && (forall k: nat, r: nat :: k < |lists| && ReducesOnly(m, lists[k], r) ==> k in auto)
  }

  /** The default is a most frequent reduce, shifts into auto-reduce states reduce at once, and
      every other entry is as before. */
  ghost predicate EntriesExact(m: Analysed, aps: seq<Action>, auto: map<nat, nat>, final: seq<Action>) {
    && (exists dflt :: DefaultChosen(aps, StartRules(m.g), dflt) && LiveOnDefault(final, m.g.nsymbol, dflt))
    && forall sp: nat :: sp < m.g.nsymbol && LiveOn(aps, sp) != [] ==> EntryExact(aps, auto, final, sp, m.g.nsymbol)
  }

  predicate EntryExact(aps: seq<Action>, auto: map<nat, nat>, final: seq<Action>, sp: nat, d: nat)
    requires LiveOn(aps, sp) != []
  {
    var a := LiveOn(aps, sp)[0];
    Lookup(final, sp, d) == if a.kind == SHIFT && a.arg in auto then Some(Move(SHIFTREDUCE, auto[a.arg])) else Some(Move(a.kind, a.arg))
  }

  lemma AutoMapExact(m: Analysed, lists: seq<seq<Action>>, cs: seq<Compressed>)
    requires |lists| == |cs| && forall k :: 0 <= k < |cs| ==> CompressedFrom(m, lists[k], cs[k])
    ensures AutosExact(m, lists, AutoMap(cs))
  {
    hide Machine.KeepsMoves, Machine.OnlyReduces, OnlyReduce, Count, StartRules, LiveOnDefault;
    forall k: nat, r: nat | k < |lists| && ReducesOnly(m, lists[k], r) ensures k in AutoMap(cs) {
      assert CompressedFrom(m, lists[k], cs[k]);
      OneRuleOnly(m, lists[k], r, cs[k].dflt);
    }
    forall k | k in AutoMap(cs) ensures k < |lists| && ReducesOnly(m, lists[k], AutoMap(cs)[k]) {
      assert CompressedFrom(m, lists[k], cs[k]);
    }
  }

  lemma OneRuleOnly(m: Analysed, aps: seq<Action>, r: nat, dflt: Option<nat>)
    requires ReducesOnly(m, aps, r) && DefaultChosen(aps, StartRules(m.g), dflt)
    ensures dflt == Some(r)
  {
    CountZero(aps, r);
    var a :| a in aps && IsReduceBy(a, r);
    if dflt.Some? {
      CountZero(aps, dflt.value);
      var b :| b in aps && IsReduceBy(b, dflt.value);
    }
  }

  lemma FinalEntries(m: Analysed, aps: seq<Action>, c: Compressed, auto: map<nat, nat>)
    requires CompressedFrom(m, aps, c) && m.g.nterminal <= m.g.nsymbol
    ensures EntriesExact(m, aps, auto, Fused(c.aps, auto))
  {
    var d, final := m.g.nsymbol, Fused(c.aps, auto);
    FusedLiveOn(c.aps, auto, d);
    assert LiveOnDefault(final, d, c.dflt);
    hide DefaultChosen, LiveOnDefault, LiveOn, Fused, OnlyReduce;
    forall sp: nat | sp < d && LiveOn(aps, sp) != [] ensures EntryExact(aps, auto, final, sp, d) {
      FusedLookup(c.aps, auto, sp, d);
      KeptMove(m, aps, c, sp);
    }
  }

  lemma KeptMove(m: Analysed, aps: seq<Action>, c: Compressed, sp: nat)
    requires CompressedFrom(m, aps, c) && sp < m.g.nsymbol && LiveOn(aps, sp) != []
    ensures Lookup(c.aps, sp, m.g.nsymbol) == Some(MoveOf(LiveOn(aps, sp)[0]))
  {
    hide DefaultChosen, LiveOnDefault, LiveOn, OnlyReduce, Machine.OnlyReduces;
    var G := RulesOf(m.g);
    if sp < G.nterminal {
      assert Lookup(aps, sp, G.d) != None;
    } else {
      assert Machine.Goto(aps, sp) != None;
    }
  }

  /** The finished lists are the compressed ones: exactly the auto-reduce states are fused away. */
  ghost predicate Compression(m: Analysed, lists: seq<seq<Action>>, finals: seq<seq<Action>>) {
    |lists| == |finals| && exists auto: map<nat, nat> :: CompressionBy(m, lists, auto, finals)
  }

  ghost predicate CompressionBy(m: Analysed, lists: seq<seq<Action>>, auto: map<nat, nat>, finals: seq<seq<Action>>)
    requires |lists| == |finals|
  {
    AutosExact(m, lists, auto) && forall k :: 0 <= k < |lists| ==> EntriesExact(m, lists[k], auto, finals[k])
  }

  /** `CompressTables`: the finished lists are sound, and accept what the lists accepted. */
  method CompressTables(m: Analysed, lists: seq<seq<Action>>) returns (auto: map<nat, nat>, finals: seq<seq<Action>>)
    requires WellAnalysed(m) && |lists| == |m.states| && forall k :: 0 <= k < |lists| ==> Resolved(m, k, lists[k])
    ensures |finals| == |lists| && forall k :: 0 <= k < |finals| ==> FinalOk(m, auto, k, finals[k])
    ensures RulesOk(RulesOf(m.g)) && AcceptsAlike(m.g, lists, finals) && StepsKept(m.g, lists, finals)
    ensures CompressionBy(m, lists, auto, finals)
  {
    RulesOfOk(m.g);
    assert m.g.nterminal <= m.g.nsymbol;
    hide AutosExact, EntriesExact, Wf, Resolved, CompressedOk, CompressedFrom, FinalOk, AcceptsAlike, StepsKept, RulesOk, FollowClosed, LambdaClosed, FirstClosed;
    var cs := CompressAll(m, lists);
    auto, finals := FuseAll(m, cs);
    ghost var after := seq(|cs|, k requires 0 <= k < |cs| => cs[k].aps);
    assert Passed(m, lists, cs, after);
    PassesAcceptAlike(m, lists, cs, after, finals);
    PassesKeepSteps(m, lists, cs, after, finals);
    AutoMapExact(m, lists, cs);
    forall k | 0 <= k < |lists| ensures EntriesExact(m, lists[k], auto, finals[k]) { FinalEntries(m, lists[k], cs[k], auto); }
  }
}
