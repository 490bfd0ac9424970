/** `FindActions` for one state: collect shifts, reduces and the accept, sort, resolve. */
module ActionLists {
  import opened Grammars
  import opened FirstSets
  import opened Closures
  import opened Automata
  import opened StackInvariant
  import opened Driver
  import opened FollowSets
  import opened Actions
  import opened Precedence
  import opened Compress
  import opened Lookaheads
  import MergeSort

  /** The grammar, its automaton, and the follow sets of its configurations. */
  datatype Analysed = Analysed(g: Grammar, an: Analysis, states: seq<State>, cfgs: seq<Config>, fws: Sets)

  ghost predicate Wf(m: Analysed) {
    && ValidGrammar(m.g) && NoStartOnRhs(m.g) && Sized(m.g, m.an) && IsAutomaton(m.g, m.an, m.states)
    && AllConfigs(m.states, m.cfgs) && |m.fws| == |m.cfgs| && Bounded(m.g.nterminal, m.fws)
    && forall c :: 0 <= c < |m.cfgs| && IsStartRule(m.g, m.cfgs[c].item.rule) ==> m.fws[c] <= {0}
  }

  /** Configuration number `c` is rule `r` complete in state `k`, and `t` may follow it. */
  predicate ReducesAt(m: Analysed, k: nat, r: nat, t: nat, c: nat) {
    && c < |m.cfgs| && c < |m.fws| && r < |m.g.rules|
    && m.cfgs[c] == Config(k, Item(r, |m.g.rules[r].rhs|)) && t in m.fws[c]
  }

  /** The actions a state is entitled to. */
  ghost predicate Entitled(m: Analysed, k: nat, sp: nat, kind: Kind, arg: nat) {
    || (kind == SHIFT && Edge(m.g, m.states, k, sp, arg))
    || (kind == REDUCE && exists c: nat :: ReducesAt(m, k, arg, sp, c))
    || (kind == ACCEPT && k == 0 && sp == m.g.start && arg == 0)
  }

  ghost predicate Listed(aps: seq<Action>, sp: nat, kind: Kind, arg: nat) {
    exists a :: a in aps && a.sp == sp && a.kind == kind && a.arg == arg
  }

  /** Every action carries its position of creation, so no two are equal. */
  predicate Fresh(aps: seq<Action>) { forall i :: 0 <= i < |aps| ==> aps[i].id == i }

  function Added(aps: seq<Action>, sp: nat, kind: Kind, arg: nat): (r: seq<Action>)
    ensures Fresh(aps) ==> Fresh(r)
  {
    aps + [Action(sp, kind, arg, |aps|)]
  }

  lemma AddedListed(aps: seq<Action>, sp: nat, kind: Kind, arg: nat)
    ensures forall s: nat, k: Kind, a: nat :: Listed(Added(aps, sp, kind, arg), s, k, a) <==> Listed(aps, s, k, a) || (s == sp && k == kind && a == arg)
  {
    var all := Added(aps, sp, kind, arg);
    assert forall x :: x in all <==> x in aps || x == Action(sp, kind, arg, |aps|);
    forall s: nat, k: Kind, a: nat | Listed(aps, s, k, a) ensures Listed(all, s, k, a) {
      var x :| x in aps && x.sp == s && x.kind == k && x.arg == a;
      assert x in all;
    }
    assert Action(sp, kind, arg, |aps|) in all;
  }

  /** No action is listed twice; shifts count only where `shifts` says so. */
  ghost predicate Single(aps: seq<Action>, shifts: bool) {
    forall i, j :: 0 <= i < j < |aps| && (aps[i].kind == SHIFT ==> shifts) ==> !Is(aps[j], aps[i].sp, aps[i].kind, aps[i].arg)
  }

  lemma AddedSingle(aps: seq<Action>, sp: nat, kind: Kind, arg: nat, shifts: bool)
    requires (kind == SHIFT ==> shifts) ==> !Listed(aps, sp, kind, arg)
    ensures Single(aps, shifts) ==> Single(Added(aps, sp, kind, arg), shifts)
  {
    var all := Added(aps, sp, kind, arg);
    forall i, j | 0 <= i < j < |all| && Single(aps, shifts) && (all[i].kind == SHIFT ==> shifts) ensures !Is(all[j], all[i].sp, all[i].kind, all[i].arg) {
      if j == |aps| { assert aps[i] in aps; }
    }
  }

  lemma SingleLess(aps: seq<Action>, a: bool, b: bool)
    requires Single(aps, a) && (b ==> a)
    ensures Single(aps, b)
  {
  }

  /** Every token class lists each token once. */
  ghost predicate TokensDistinct(g: Grammar) {
    forall r, i :: 0 <= r < |g.rules| && 0 <= i < |g.rules[r].rhs| && g.rules[r].rhs[i].MultiTerminal? ==> MergeSort.NoRepeats(g.rules[r].rhs[i].subs)
  }

  /** No two shifts lead to one state, and none is on a token twice. */
  ghost predicate ShiftsApart(shifts: seq<Shift>) {
    && (forall i, j :: 0 <= i < j < |shifts| ==> shifts[i].target != shifts[j].target)
    && (forall i :: 0 <= i < |shifts| ==> MergeSort.NoRepeats(Expanded(shifts[i].sym)))
  }

  lemma AutomatonShiftsApart(m: Analysed, k: nat)
    requires Wf(m) && k < |m.states| && TokensDistinct(m.g)
    ensures ShiftsApart(m.states[k].shifts)
  {
    var shifts := m.states[k].shifts;
    assert Complete(m.g, m.states, k);
    forall i, j | 0 <= i < j < |shifts| ensures shifts[i].target != shifts[j].target { TargetsDiffer(m, k, shifts[i], shifts[j]); }
    forall i | 0 <= i < |shifts| ensures MergeSort.NoRepeats(Expanded(shifts[i].sym)) { ExpandedOnce(m, k, shifts[i]); }
  }

  lemma OneShift(m: Analysed, k: nat, sh: Shift, sh': Shift)
    requires Wf(m) && k < |m.states| && sh in m.states[k].shifts && sh' in m.states[k].shifts && sh.sym == sh'.sym
    ensures sh == sh'
  {
    assert Complete(m.g, m.states, k);
    hide Wf, ShiftOk;
    var i :| 0 <= i < |m.states[k].shifts| && m.states[k].shifts[i] == sh;
    var j :| 0 <= j < |m.states[k].shifts| && m.states[k].shifts[j] == sh';
  }

  lemma TargetsDiffer(m: Analysed, k: nat, a: Shift, b: Shift)
    requires Wf(m) && k < |m.states| && a in m.states[k].shifts && b in m.states[k].shifts && a.sym != b.sym
    ensures a.target != b.target
  {
    ShiftFits(m.g, m.an, m.states, k, a);
    ShiftFits(m.g, m.an, m.states, k, b);
    hide Wf;
    var items := m.states[k].closed.items;
    var y :| y in items && Before(m.g, y, a.sym);
    assert Advance(y) in Moved(m.g, items, a.sym);
    assert Advance(y) !in Moved(m.g, items, b.sym);
  }

  lemma ExpandedOnce(m: Analysed, k: nat, sh: Shift)
    requires Wf(m) && k < |m.states| && sh in m.states[k].shifts && TokensDistinct(m.g)
    ensures MergeSort.NoRepeats(Expanded(sh.sym))
  {
    ShiftFits(m.g, m.an, m.states, k, sh);
    hide Wf;
    var y :| y in m.states[k].closed.items && Before(m.g, y, sh.sym);
  }

  /** The symbol numbers a shift on `s` answers to. */
  function Expanded(s: Symbol): seq<nat> {
    match s
    case Terminal(t) => [t]
    case Nonterminal(a) => [a]
    case MultiTerminal(ts) => ts
  }

  lemma ExpandedCovers(g: Grammar, s: Symbol, x: nat)
    requires ValidGrammar(g) && ValidSymbol(g, s)
    ensures x in Expanded(s) <==> Covers(g, s, x)
    ensures x in Expanded(s) ==> x < g.nsymbol
  {
    match s
    case Terminal(_) =>
    case Nonterminal(_) =>
    case MultiTerminal(ts) =>
      if x in ts {
        var k :| 0 <= k < |ts| && ts[k] == x;
        assert x < g.nterminal;
      }
  }

  /** Listed so far: the shifts on symbols before position `i` (and in it, before `j`). */
  ghost predicate ShiftedUpTo(shifts: seq<Shift>, i: nat, j: nat, sp: nat, arg: nat) {
    || (exists a :: 0 <= a < i && a < |shifts| && shifts[a].target == arg && sp in Expanded(shifts[a].sym))
    || (i < |shifts| && j <= |Expanded(shifts[i].sym)| && shifts[i].target == arg && sp in Expanded(shifts[i].sym)[..j])
  }

  method ListShifts(shifts: seq<Shift>) returns (aps: seq<Action>)
    ensures Fresh(aps)
    ensures forall sp: nat, kind: Kind, arg: nat :: Listed(aps, sp, kind, arg) <==> kind == SHIFT && ShiftedUpTo(shifts, |shifts|, 0, sp, arg)
    ensures Single(aps, ShiftsApart(shifts))
  {
    hide Listed, Single;
    aps := [];
    NoneTwice(ShiftsApart(shifts));
    NothingListed();
    for i := 0 to |shifts|
      invariant Fresh(aps) && Single(aps, ShiftsApart(shifts))
      invariant forall sp: nat, kind: Kind, arg: nat :: Listed(aps, sp, kind, arg) <==> kind == SHIFT && ShiftedUpTo(shifts, i, 0, sp, arg)
    {
      var xs := Expanded(shifts[i].sym);
      for j := 0 to |xs|
        invariant Fresh(aps) && Single(aps, ShiftsApart(shifts))
        invariant forall sp: nat, kind: Kind, arg: nat :: Listed(aps, sp, kind, arg) <==> kind == SHIFT && ShiftedUpTo(shifts, i, j, sp, arg)
      {
        assert xs[..j + 1] == xs[..j] + [xs[j]];
        if ShiftsApart(shifts) { NotShiftedYet(shifts, i, j); }
        AddedSingle(aps, xs[j], SHIFT, shifts[i].target, ShiftsApart(shifts));
        AddedListed(aps, xs[j], SHIFT, shifts[i].target);
        aps := Added(aps, xs[j], SHIFT, shifts[i].target);
      }
      assert xs[..|xs|] == xs;
      NextShift(shifts, i);
    }
  }

  lemma NoneTwice(shifts: bool)
    ensures Single([], shifts)
  {
  }

  lemma NotShiftedYet(shifts: seq<Shift>, i: nat, j: nat)
    requires ShiftsApart(shifts) && i < |shifts| && j < |Expanded(shifts[i].sym)|
    ensures !ShiftedUpTo(shifts, i, j, Expanded(shifts[i].sym)[j], shifts[i].target)
  {
    hide Expanded;
    assert MergeSort.NoRepeats(Expanded(shifts[i].sym));
  }

  lemma NothingListed()
    ensures forall s: nat, k: Kind, a: nat :: !Listed([], s, k, a)
  {
  }

  lemma NextShift(shifts: seq<Shift>, i: nat)
    requires i < |shifts|
    ensures forall sp: nat, arg: nat :: ShiftedUpTo(shifts, i, |Expanded(shifts[i].sym)|, sp, arg) <==> ShiftedUpTo(shifts, i + 1, 0, sp, arg)
  {
    var xs := Expanded(shifts[i].sym);
    assert xs[..|xs|] == xs;
    hide Expanded;
  }

  /** Shift actions are exactly the edges of the automaton. */
  lemma ShiftsAreEdges(m: Analysed, k: nat, sp: nat, arg: nat)
    requires Wf(m) && k < |m.states|
    ensures ShiftedUpTo(m.states[k].shifts, |m.states[k].shifts|, 0, sp, arg) <==> Edge(m.g, m.states, k, sp, arg)
    ensures Edge(m.g, m.states, k, sp, arg) ==> sp < m.g.nsymbol
  {
    var shifts := m.states[k].shifts;
    forall sh | sh in shifts
      ensures sp in Expanded(sh.sym) <==> Covers(m.g, sh.sym, sp)
      ensures sp in Expanded(sh.sym) ==> sp < m.g.nsymbol
    {
      ShiftSymbolValid(m, k, sh);
      ExpandedCovers(m.g, sh.sym, sp);
    }
    hide Wf, Expanded, Covers;
    if Edge(m.g, m.states, k, sp, arg) {
      var sh :| sh in shifts && Covers(m.g, sh.sym, sp) && sh.target == arg;
      var a :| 0 <= a < |shifts| && shifts[a] == sh;
    }
  }

  lemma ShiftSymbolValid(m: Analysed, k: nat, sh: Shift)
    requires Wf(m) && k < |m.states| && sh in m.states[k].shifts
    ensures ValidSymbol(m.g, sh.sym)
  {
    ShiftFits(m.g, m.an, m.states, k, sh);
    hide IsAutomaton;
    var y :| y in m.states[k].closed.items && Before(m.g, y, sh.sym);
    assert ValidRule(m.g, m.g.rules[y.rule]);
  }

  /** The reduces of configurations before `c`, and of `c` on terminals before `t`. */
  ghost predicate ReducedUpTo(m: Analysed, k: nat, c: nat, t: nat, sp: nat, arg: nat) {
    || (exists b: nat :: b < c && ReducesAt(m, k, arg, sp, b))
    || (ReducesAt(m, k, arg, sp, c) && sp < t)
  }

  method ListReduces(m: Analysed, k: nat, aps0: seq<Action>, ghost shifts: bool) returns (aps: seq<Action>)
    requires |m.fws| == |m.cfgs| && Bounded(m.g.nterminal, m.fws) && Fresh(aps0) && MergeSort.NoRepeats(m.cfgs)
    requires Single(aps0, shifts) && forall sp: nat, arg: nat :: !Listed(aps0, sp, REDUCE, arg)
    ensures Fresh(aps) && Single(aps, shifts)
    ensures forall sp: nat, kind: Kind, arg: nat :: Listed(aps, sp, kind, arg) <==>
      Listed(aps0, sp, kind, arg) || (kind == REDUCE && ReducedUpTo(m, k, |m.cfgs|, 0, sp, arg))
  {
    hide Listed, Bounded, Single;
    aps := aps0;
    for c := 0 to |m.cfgs|
      invariant Fresh(aps) && Single(aps, shifts)
      invariant forall sp: nat, kind: Kind, arg: nat :: Listed(aps, sp, kind, arg) <==>
        Listed(aps0, sp, kind, arg) || (kind == REDUCE && ReducedUpTo(m, k, c, 0, sp, arg))
    {
      var cfg := m.cfgs[c];
      if cfg.state == k && cfg.item.rule < |m.g.rules| && cfg.item.dot == |m.g.rules[cfg.item.rule].rhs| {
        for t := 0 to m.g.nterminal
          invariant Fresh(aps) && Single(aps, shifts)
          invariant forall sp: nat, kind: Kind, arg: nat :: Listed(aps, sp, kind, arg) <==>
            Listed(aps0, sp, kind, arg) || (kind == REDUCE && ReducedUpTo(m, k, c, t, sp, arg))
        {
          if t in m.fws[c] {
            AddedListed(aps, t, REDUCE, cfg.item.rule);
            NotReducedYet(m, k, c, t);
            AddedSingle(aps, t, REDUCE, cfg.item.rule, shifts);
            aps := Added(aps, t, REDUCE, cfg.item.rule);
          }
        }
      }
      NextReduce(m, k, c);
    }
  }

  lemma NotReducedYet(m: Analysed, k: nat, c: nat, t: nat)
    requires MergeSort.NoRepeats(m.cfgs) && c < |m.cfgs| && m.cfgs[c].item.rule < |m.g.rules|
    requires m.cfgs[c] == Config(k, Item(m.cfgs[c].item.rule, |m.g.rules[m.cfgs[c].item.rule].rhs|))
    ensures !ReducedUpTo(m, k, c, t, t, m.cfgs[c].item.rule)
  {
  }

  lemma NextReduce(m: Analysed, k: nat, c: nat)
    requires c < |m.cfgs| == |m.fws| && Bounded(m.g.nterminal, m.fws)
    ensures forall sp: nat, arg: nat :: ReducedUpTo(m, k, c, m.g.nterminal, sp, arg) <==> ReducedUpTo(m, k, c + 1, 0, sp, arg)
  {
    forall sp: nat, arg: nat ensures ReducedUpTo(m, k, c, m.g.nterminal, sp, arg) <==> ReducedUpTo(m, k, c + 1, 0, sp, arg) {
      assert ReducesAt(m, k, arg, sp, c) ==> sp < m.g.nterminal;
    }
  }

  /** All actions of a state, in order of creation: exactly those it is entitled to. */
  method CollectActions(m: Analysed, k: nat) returns (aps: seq<Action>)
    requires Wf(m) && k < |m.states|
    ensures Fresh(aps) && forall sp: nat, kind: Kind, arg: nat :: Listed(aps, sp, kind, arg) <==> Entitled(m, k, sp, kind, arg)
    ensures OneAccept(aps) && Single(aps, TokensDistinct(m.g))
  {
    aps := ListShifts(m.states[k].shifts);
    if TokensDistinct(m.g) { AutomatonShiftsApart(m, k); }
    assert MergeSort.NoRepeats(m.cfgs);
    ghost var distinct := TokensDistinct(m.g);
    hide Single, ShiftsApart, TokensDistinct;
    SingleLess(aps, ShiftsApart(m.states[k].shifts), distinct);
    aps := ListReduces(m, k, aps, distinct);
    hide Listed, Wf, Edge, ReducesAt, ShiftedUpTo;
    forall sp: nat, arg: nat ensures ShiftedUpTo(m.states[k].shifts, |m.states[k].shifts|, 0, sp, arg) <==> Edge(m.g, m.states, k, sp, arg) {
      ShiftsAreEdges(m, k, sp, arg);
    }
    ReducesListed(m, k);
    NoAcceptYet(aps);
    if k == 0 {
      AddedListed(aps, m.g.start, ACCEPT, 0);
      AddedSingle(aps, m.g.start, ACCEPT, 0, distinct);
      aps := Added(aps, m.g.start, ACCEPT, 0);
    }
  }

  lemma ReducesListed(m: Analysed, k: nat)
    ensures forall sp: nat, arg: nat :: ReducedUpTo(m, k, |m.cfgs|, 0, sp, arg) <==> exists c: nat :: ReducesAt(m, k, arg, sp, c)
  {
  }

  predicate OneAccept(aps: seq<Action>) {
    forall a, b :: a in aps && b in aps && a.kind == ACCEPT && b.kind == ACCEPT ==> a == b
  }

  lemma NoAcceptYet(aps: seq<Action>)
    requires forall sp: nat, arg: nat :: !Listed(aps, sp, ACCEPT, arg)
    ensures OneAccept(aps) && forall sp: nat, arg: nat :: OneAccept(Added(aps, sp, ACCEPT, arg))
  {
    forall a | a in aps ensures a.kind != ACCEPT {
      assert !Listed(aps, a.sp, ACCEPT, a.arg);
    }
  }

  // ---- Sorting and resolving ----

  /** What conflict resolution leaves for state `k`: live actions are among those the state is
      entitled to, and every symbol with any entitled action has exactly one. */
  ghost predicate Resolved(m: Analysed, k: nat, aps: seq<Action>) {
    && (forall a :: a in aps && Live(a) ==> Entitled(m, k, a.sp, a.kind, a.arg))
    && Deterministic(aps)
    && (forall sp: nat, kind: Kind, arg: nat :: Entitled(m, k, sp, kind, arg) ==> LiveOn(aps, sp) != [])
  }

  /** The action left on a symbol is the champion of those the state is entitled to, in the order of
      `actioncmp`. */
  ghost predicate Elected(m: Analysed, p: Precedences, k: nat, aps: seq<Action>) {
    exists sorted: seq<Action> :: ElectedFrom(m, p, k, aps, sorted)
  }

  ghost predicate ElectedFrom(m: Analysed, p: Precedences, k: nat, aps: seq<Action>, sorted: seq<Action>) {
    && MergeSort.Sorted(ActionCmp, sorted)
    && (forall sp: nat, kind: Kind, arg: nat :: Listed(sorted, sp, kind, arg) <==> Entitled(m, k, sp, kind, arg))
    && (forall sp: nat :: LiveOn(sorted, sp) != [] ==> LiveOn(aps, sp) == [Champion(p, LiveOn(sorted, sp))])
  }

  // ---- How precedence settles a state ----

  /** State `k` may shift `t` to `s` or reduce by `r` on it, and nothing else. */
  ghost predicate ShiftReduceOn(m: Analysed, k: nat, t: nat, s: nat, r: nat) {
    forall kind: Kind, arg: nat :: Entitled(m, k, t, kind, arg) <==> (kind == SHIFT && arg == s) || (kind == REDUCE && arg == r)
  }

  /** State `k` may reduce by `r1` or by the later rule `r2` on `t`, and nothing else. */
  ghost predicate TwoReducesOn(m: Analysed, k: nat, t: nat, r1: nat, r2: nat) {
    r1 < r2 && forall kind: Kind, arg: nat :: Entitled(m, k, t, kind, arg) <==> kind == REDUCE && (arg == r1 || arg == r2)
  }

  ghost predicate Keeps(aps: seq<Action>, t: nat, kind: Kind, arg: nat) { |LiveOn(aps, t)| == 1 && Is(LiveOn(aps, t)[0], t, kind, arg) }

  /** The greater precedence wins, right associativity keeps the shift on a tie, and without
      declarations the shift stays and one conflict is counted. */
  ghost predicate ShiftReduceSettled(m: Analysed, p: Precedences, aps: seq<Action>, t: nat, s: nat, r: nat) {
    if t in p.prec && r in p.precsym && p.precsym[r] in p.prec then
      && (if p.prec[t] > p.prec[p.precsym[r]] || (p.prec[t] == p.prec[p.precsym[r]] && t in p.assoc && p.assoc[t] == RIGHT)
          then Keeps(aps, t, SHIFT, s) else Keeps(aps, t, REDUCE, r))
      && (TokensDistinct(m.g) ==> ConflictsOn(aps, t) == 0)
    else
      Keeps(aps, t, SHIFT, s) && (TokensDistinct(m.g) ==> ConflictsOn(aps, t) == 1)
  }

  /** The rule of greater precedence wins; where precedence does not tell, the earlier rule stays
      and one conflict is counted. */
  ghost predicate ReducesSettled(p: Precedences, aps: seq<Action>, t: nat, r1: nat, r2: nat) {
    if r1 in p.precsym && p.precsym[r1] in p.prec && r2 in p.precsym && p.precsym[r2] in p.prec && p.prec[p.precsym[r1]] != p.prec[p.precsym[r2]] then
      && (if p.prec[p.precsym[r1]] < p.prec[p.precsym[r2]] then Keeps(aps, t, REDUCE, r2) else Keeps(aps, t, REDUCE, r1))
      && ConflictsOn(aps, t) == 0
    else
      Keeps(aps, t, REDUCE, r1) && ConflictsOn(aps, t) == 1
  }

  ghost predicate Settled(m: Analysed, p: Precedences, k: nat, aps: seq<Action>) {
    && (forall t: nat, s: nat, r: nat :: ShiftReduceOn(m, k, t, s, r) ==> ShiftReduceSettled(m, p, aps, t, s, r))
    && (forall t: nat, r1: nat, r2: nat :: TwoReducesOn(m, k, t, r1, r2) ==> ReducesSettled(p, aps, t, r1, r2))
  }

  /** No symbol has two actions in state `k`. */
  ghost predicate ConflictFreeAt(m: Analysed, k: nat) {
    forall sp: nat, kind: Kind, arg: nat, kind': Kind, arg': nat ::
      Entitled(m, k, sp, kind, arg) && Entitled(m, k, sp, kind', arg') ==> kind == kind' && arg == arg'
  }

  ghost predicate ConflictFree(m: Analysed) { forall k: nat :: k < |m.states| ==> ConflictFreeAt(m, k) }

  /** A pass that reports nothing, without precedences, met no conflict. */
  lemma QuietIsFree(m: Analysed, p: Precedences, k: nat, sorted: seq<Action>)
    requires p.prec == map[] && Grouped(sorted) && AllResolvable(sorted) && Pass(p, sorted).1 == 0
    requires forall a :: a in sorted ==> Live(a)
    requires forall sp: nat, kind: Kind, arg: nat :: Listed(sorted, sp, kind, arg) <==> Entitled(m, k, sp, kind, arg)
    ensures ConflictFreeAt(m, k)
  {
    hide Entitled, Pass, AllResolvable;
    QuietPass(p, sorted);
    forall sp: nat, kind: Kind, arg: nat, kind': Kind, arg': nat | Entitled(m, k, sp, kind, arg) && Entitled(m, k, sp, kind', arg')
      ensures kind == kind' && arg == arg'
    {
      assert Listed(sorted, sp, kind, arg) && Listed(sorted, sp, kind', arg');
    }
  }

  lemma EntitledPair(m: Analysed, k: nat, a: Action, b: Action)
    requires Wf(m) && k < |m.states| && a != b && a.sp == b.sp && ActionCmp(a, b) <= 0
    requires Entitled(m, k, a.sp, a.kind, a.arg) && Entitled(m, k, b.sp, b.kind, b.arg)
    requires a.kind == ACCEPT && b.kind == ACCEPT ==> a == b
    ensures Resolvable(a, b)
  {
    if a.kind == ACCEPT || b.kind == ACCEPT {
      NothingElseOnStart(m, k, if a.kind == ACCEPT then b else a);
    }
  }

  /** The start symbol is never shifted and never a lookahead of a reduce. */
  lemma NothingElseOnStart(m: Analysed, k: nat, a: Action)
    requires Wf(m) && k < |m.states| && a.sp == m.g.start && Entitled(m, k, a.sp, a.kind, a.arg)
    ensures a.kind == ACCEPT
  {
    forall sh | sh in m.states[k].shifts ensures !Covers(m.g, sh.sym, m.g.start) {
      ShiftFits(m.g, m.an, m.states, k, sh);
      ShiftSymbolValid(m, k, sh);
      hide IsAutomaton;
      var y :| y in m.states[k].closed.items && Before(m.g, y, sh.sym);
      assert sh.sym != Nonterminal(m.g.start);
    }
    assert !Edge(m.g, m.states, k, m.g.start, a.arg);
  }

  lemma SortedIsResolvable(m: Analysed, k: nat, aps: seq<Action>, sorted: seq<Action>)
    requires Wf(m) && k < |m.states| && Fresh(aps) && OneAccept(aps)
    requires forall sp: nat, kind: Kind, arg: nat :: Listed(aps, sp, kind, arg) <==> Entitled(m, k, sp, kind, arg)
    requires MergeSort.Sorted(ActionCmp, sorted) && multiset(aps) == multiset(sorted)
    ensures Grouped(sorted) && AllResolvable(sorted)
    ensures forall sp: nat, kind: Kind, arg: nat :: Listed(sorted, sp, kind, arg) <==> Entitled(m, k, sp, kind, arg)
    ensures forall a :: a in sorted ==> Live(a) && Entitled(m, k, a.sp, a.kind, a.arg)
    ensures forall sp: nat, kind: Kind, arg: nat :: Entitled(m, k, sp, kind, arg) ==> LiveOn(sorted, sp) != []
  {
    assert MergeSort.NoRepeats(aps);
    MergeSort.RearrangedElements(aps, sorted);
    hide Wf, ActionCmp;
    forall sp: nat, kind: Kind, arg: nat ensures Listed(sorted, sp, kind, arg) <==> Listed(aps, sp, kind, arg) { }
    forall a | a in sorted ensures Live(a) && Entitled(m, k, a.sp, a.kind, a.arg) {
      assert Listed(aps, a.sp, a.kind, a.arg);
    }
    forall i, j | 0 <= i < j < |sorted| ensures sorted[i].sp <= sorted[j].sp && (sorted[i].sp == sorted[j].sp ==> Resolvable(sorted[i], sorted[j])) {
      assert sorted[i] in sorted && sorted[j] in sorted;
      CmpOrdersSymbols(sorted[i], sorted[j]);
      if sorted[i].sp == sorted[j].sp { EntitledPair(m, k, sorted[i], sorted[j]); }
    }
    forall sp: nat, kind: Kind, arg: nat | Entitled(m, k, sp, kind, arg) ensures LiveOn(sorted, sp) != [] {
      assert Listed(aps, sp, kind, arg);
      var a :| a in aps && a.sp == sp && a.kind == kind && a.arg == arg;
      LiveOnMembers(sorted, sp);
      assert a in LiveOn(sorted, sp);
    }
  }

  lemma CmpOrdersSymbols(a: Action, b: Action)
    requires ActionCmp(a, b) <= 0
    ensures a.sp <= b.sp
  {
  }

  // ---- Precedence settles what it should ----

  lemma {:induction false} AllLiveOn(aps: seq<Action>, sp: nat)
    requires forall a :: a in aps ==> Live(a)
    ensures OnSymbol(aps, sp) == LiveOn(aps, sp)
  {
    if aps != [] {
      assert aps[0] in aps;
      AllLiveOn(aps[1..], sp);
    }
  }

  lemma {:induction false} SingleOn(aps: seq<Action>, sp: nat, shifts: bool)
    requires Single(aps, shifts)
    ensures Single(OnSymbol(aps, sp), shifts)
  {
    if aps != [] {
      SingleOn(aps[1..], sp, shifts);
      var on := OnSymbol(aps[1..], sp);
      OnMembers(aps[1..], sp);
      forall j | 0 <= j < |on| && (aps[0].kind == SHIFT ==> shifts) ensures !Is(on[j], aps[0].sp, aps[0].kind, aps[0].arg) {
        assert on[j] in on;
        var i :| 0 <= i < |aps[1..]| && aps[1..][i] == on[j];
        assert aps[i + 1] == on[j];
      }
    }
  }

  /** In sorted order the shifts come first. */
  lemma {:induction false} ShiftsFirst(aps: seq<Action>, t: nat, s: nat, r: nat)
    requires AllResolvable(aps) && (forall a :: a in aps ==> Live(a))
    requires forall a :: a in aps && a.sp == t ==> Is(a, t, SHIFT, s) || Is(a, t, REDUCE, r)
    ensures ShiftsThenReduces(LiveOn(aps, t), t, s, r)
  {
    if aps != [] {
      assert aps[0] in aps;
      ShiftsFirst(aps[1..], t, s, r);
      var on := LiveOn(aps[1..], t);
      LiveOnMembers(aps[1..], t);
      forall j | 0 <= j < |on| && aps[0].sp == t && on[j].kind == SHIFT ensures aps[0].kind == SHIFT {
        assert on[j] in on;
        var i :| 0 <= i < |aps[1..]| && aps[1..][i] == on[j];
        assert aps[i + 1] == on[j] && Resolvable(aps[0], aps[i + 1]);
      }
    }
  }

  lemma {:induction false} EarlierFirst(aps: seq<Action>, t: nat, r1: nat, r2: nat)
    requires MergeSort.Sorted(ActionCmp, aps) && (forall a :: a in aps ==> Live(a)) && r1 < r2
    requires forall a :: a in aps && a.sp == t ==> Is(a, t, REDUCE, r1) || Is(a, t, REDUCE, r2)
    ensures ReducesInOrder(LiveOn(aps, t), t, r1, r2)
  {
    if aps != [] {
      assert aps[0] in aps;
      EarlierFirst(aps[1..], t, r1, r2);
      var on := LiveOn(aps[1..], t);
      LiveOnMembers(aps[1..], t);
      forall j | 0 <= j < |on| && aps[0].sp == t && on[j].arg == r1 ensures aps[0].arg == r1 {
        assert on[j] in on;
        var i :| 0 <= i < |aps[1..]| && aps[1..][i] == on[j];
        assert aps[i + 1] == on[j] && ActionCmp(aps[0], aps[i + 1]) <= 0;
      }
    }
  }

  /** A list with one action of each of two shapes, and nothing else. */
  lemma TwoShapes(on: seq<Action>, t: nat, k1: Kind, a1: nat, k2: Kind, a2: nat, x: Action, y: Action)
    requires Single(on, true) && (k1 != k2 || a1 != a2)
    requires forall i :: 0 <= i < |on| ==> Is(on[i], t, k1, a1) || Is(on[i], t, k2, a2)
    requires x in on && Is(x, t, k1, a1) && y in on && Is(y, t, k2, a2)
    ensures on == [x, y] || on == [y, x]
  {
    var i :| 0 <= i < |on| && on[i] == x;
    var j :| 0 <= j < |on| && on[j] == y;
    forall h: nat | In(h, |on|) ensures h == i || h == j {
      SameShape(on, h, if Is(on[h], t, k1, a1) then i else j);
    }
    FewIndices(|on|, i, j);
  }

  lemma SameShape(on: seq<Action>, h: nat, i: nat)
    requires Single(on, true) && h < |on| && i < |on| && Is(on[h], on[i].sp, on[i].kind, on[i].arg)
    ensures h == i
  {
  }

  lemma FewIndices(n: nat, i: nat, j: nat)
    requires forall h: nat {:trigger In(h, n)} :: In(h, n) ==> h == i || h == j
    ensures n <= 2
  {
    assert In(0, n) || n <= 0;
    assert In(1, n) || n <= 1;
    assert In(2, n) || n <= 2;
  }

  predicate In(h: nat, n: nat) { h < n }

  /** Sorting lists nothing twice. */
  lemma SortedSingle(aps: seq<Action>, sorted: seq<Action>, shifts: bool)
    requires Fresh(aps) && Single(aps, shifts) && multiset(aps) == multiset(sorted)
    ensures Single(sorted, shifts)
  {
    assert MergeSort.NoRepeats(aps);
    MergeSort.RearrangedElements(aps, sorted);
    forall i, j | 0 <= i < j < |sorted| && (sorted[i].kind == SHIFT ==> shifts) ensures !Is(sorted[j], sorted[i].sp, sorted[i].kind, sorted[i].arg) {
      assert sorted[i] in sorted && sorted[j] in sorted;
      var a :| 0 <= a < |aps| && aps[a] == sorted[i];
      var b :| 0 <= b < |aps| && aps[b] == sorted[j];
      assert a != b;
      assert a < b ==> !Is(aps[b], aps[a].sp, aps[a].kind, aps[a].arg);
      assert b < a && aps[b].kind == aps[a].kind ==> !Is(aps[a], aps[b].sp, aps[b].kind, aps[b].arg);
    }
  }

  /** A sorted list of all that a state is entitled to. */
  ghost predicate Contenders(m: Analysed, k: nat, sorted: seq<Action>) {
    && Grouped(sorted) && AllResolvable(sorted) && MergeSort.Sorted(ActionCmp, sorted) && (forall a :: a in sorted ==> Live(a))
    && Single(sorted, TokensDistinct(m.g))
    && forall sp: nat, kind: Kind, arg: nat :: Listed(sorted, sp, kind, arg) <==> Entitled(m, k, sp, kind, arg)
  }

  lemma OneOf(m: Analysed, k: nat, sorted: seq<Action>, sp: nat, kind: Kind, arg: nat) returns (a: Action)
    requires Contenders(m, k, sorted) && Entitled(m, k, sp, kind, arg)
    ensures a in sorted && a in LiveOn(sorted, sp) && Is(a, sp, kind, arg)
  {
    hide Entitled, Single, AllResolvable, Grouped, MergeSort.Sorted;
    assert Listed(sorted, sp, kind, arg);
    a :| a in sorted && a.sp == sp && a.kind == kind && a.arg == arg;
    LiveOnMembers(sorted, sp);
  }

  lemma OnlyEntitled(m: Analysed, k: nat, sorted: seq<Action>, a: Action)
    requires Contenders(m, k, sorted) && a in sorted
    ensures Entitled(m, k, a.sp, a.kind, a.arg)
  {
    hide Entitled, Single, AllResolvable, Grouped, MergeSort.Sorted;
    assert Listed(sorted, a.sp, a.kind, a.arg);
  }

  lemma ShiftReduceLaw(m: Analysed, p: Precedences, k: nat, sorted: seq<Action>, t: nat, s: nat, r: nat)
    requires NoNonassoc(p) && Contenders(m, k, sorted) && ShiftReduceOn(m, k, t, s, r)
    ensures ShiftReduceSettled(m, p, Pass(p, sorted).0, t, s, r)
  {
    var cs := LiveOn(sorted, t);
    var x := OneOf(m, k, sorted, t, SHIFT, s);
    var y := OneOf(m, k, sorted, t, REDUCE, r);
    forall a | a in sorted && a.sp == t ensures Is(a, t, SHIFT, s) || Is(a, t, REDUCE, r) { OnlyEntitled(m, k, sorted, a); }
    ShiftsFirst(sorted, t, s, r);
    hide Entitled, Single, AllResolvable, Grouped, MergeSort.Sorted, Contenders, Champion, Pass, LiveOn, Conflicts;
    FirstAndLast(cs, t, s, r, x, y);
    ShiftChampion(p, cs, t, s, r);
    assert Grouped(sorted) && AllResolvable(sorted) by { Parts(m, k, sorted); }
    PassLeavesChampion(p, sorted, t);
    if TokensDistinct(m.g) {
      ShiftReduceCount(m, p, k, sorted, t, s, r, x, y);
    }
  }

  lemma Parts(m: Analysed, k: nat, sorted: seq<Action>)
    requires Contenders(m, k, sorted)
    ensures Grouped(sorted) && AllResolvable(sorted) && MergeSort.Sorted(ActionCmp, sorted) && (forall a :: a in sorted ==> Live(a))
    ensures Single(sorted, TokensDistinct(m.g))
  {
  }

  lemma FirstAndLast(cs: seq<Action>, t: nat, s: nat, r: nat, x: Action, y: Action)
    requires ShiftsThenReduces(cs, t, s, r) && x in cs && x.kind == SHIFT && y in cs && y.kind == REDUCE
    ensures cs[0].kind == SHIFT && cs[|cs| - 1].kind == REDUCE
  {
    var i :| 0 <= i < |cs| && cs[i] == x;
    var j :| 0 <= j < |cs| && cs[j] == y;
    assert i > 0 ==> cs[0].kind == SHIFT;
    assert Is(cs[|cs| - 1], t, SHIFT, s) || Is(cs[|cs| - 1], t, REDUCE, r);
  }

  lemma ShiftReduceCount(m: Analysed, p: Precedences, k: nat, sorted: seq<Action>, t: nat, s: nat, r: nat, x: Action, y: Action)
    requires NoNonassoc(p) && Contenders(m, k, sorted) && TokensDistinct(m.g) && ShiftsThenReduces(LiveOn(sorted, t), t, s, r)
    requires x in LiveOn(sorted, t) && Is(x, t, SHIFT, s) && y in LiveOn(sorted, t) && Is(y, t, REDUCE, r)
    ensures ConflictsOn(Pass(p, sorted).0, t) == if Undeclared(p, t, r) then 1 else 0
  {
    var on := OnSymbol(sorted, t);
    Parts(m, k, sorted);
    AllLiveOn(sorted, t);
    SingleOn(sorted, t, true);
    hide Contenders, LiveOn, Single, Pass, Conflicts, AllResolvable, Grouped, MergeSort.Sorted;
    TwoShapes(on, t, SHIFT, s, REDUCE, r, x, y);
    assert on == [x, y];
    PassOnSymbol(p, sorted, t);
    TwoOn(p, x, y);
  }

  lemma TwoReducesLaw(m: Analysed, p: Precedences, k: nat, sorted: seq<Action>, t: nat, r1: nat, r2: nat)
    requires NoNonassoc(p) && Contenders(m, k, sorted) && TwoReducesOn(m, k, t, r1, r2)
    ensures ReducesSettled(p, Pass(p, sorted).0, t, r1, r2)
  {
    var cs := LiveOn(sorted, t);
    var x := OneOf(m, k, sorted, t, REDUCE, r1);
    var y := OneOf(m, k, sorted, t, REDUCE, r2);
    forall a | a in sorted && a.sp == t ensures Is(a, t, REDUCE, r1) || Is(a, t, REDUCE, r2) { OnlyEntitled(m, k, sorted, a); }
    Parts(m, k, sorted);
    EarlierFirst(sorted, t, r1, r2);
    hide Entitled, Single, AllResolvable, Grouped, MergeSort.Sorted, Contenders, Champion, Pass, LiveOn, Conflicts;
    FirstAndLater(cs, t, r1, r2, x, y);
    ReduceChampion(p, cs, t, r1, r2);
    PassLeavesChampion(p, sorted, t);
    TwoReducesCount(m, p, k, sorted, t, r1, r2, x, y);
  }

  lemma FirstAndLater(cs: seq<Action>, t: nat, r1: nat, r2: nat, x: Action, y: Action)
    requires r1 != r2 && ReducesInOrder(cs, t, r1, r2) && x in cs && x.arg == r1 && y in cs && y.arg == r2
    ensures cs[0].arg == r1 && cs[|cs| - 1].arg == r2
  {
    var i :| 0 <= i < |cs| && cs[i] == x;
    var j :| 0 <= j < |cs| && cs[j] == y;
    assert i > 0 ==> cs[0].arg == r1;
    assert Is(cs[|cs| - 1], t, REDUCE, r1) || Is(cs[|cs| - 1], t, REDUCE, r2);
  }

  lemma TwoReducesCount(m: Analysed, p: Precedences, k: nat, sorted: seq<Action>, t: nat, r1: nat, r2: nat, x: Action, y: Action)
    requires NoNonassoc(p) && Contenders(m, k, sorted) && r1 != r2 && ReducesInOrder(LiveOn(sorted, t), t, r1, r2)
    requires x in LiveOn(sorted, t) && Is(x, t, REDUCE, r1) && y in LiveOn(sorted, t) && Is(y, t, REDUCE, r2)
    ensures ConflictsOn(Pass(p, sorted).0, t) == if Level(p, r1, r2) then 1 else 0
  {
    var on := OnSymbol(sorted, t);
    Parts(m, k, sorted);
    AllLiveOn(sorted, t);
    SingleOn(sorted, t, TokensDistinct(m.g));
    SingleReduces(on, TokensDistinct(m.g));
    hide Contenders, LiveOn, Single, Pass, Conflicts, AllResolvable, Grouped, MergeSort.Sorted;
    TwoShapes(on, t, REDUCE, r1, REDUCE, r2, x, y);
    assert on == [x, y];
    PassOnSymbol(p, sorted, t);
    TwoOn(p, x, y);
  }

  lemma SingleReduces(on: seq<Action>, shifts: bool)
    requires Single(on, shifts) && forall i :: 0 <= i < |on| ==> on[i].kind == REDUCE
    ensures Single(on, true)
  {
  }

  lemma AllSettled(m: Analysed, p: Precedences, k: nat, sorted: seq<Action>)
    requires NoNonassoc(p) && Contenders(m, k, sorted)
    ensures Settled(m, p, k, Pass(p, sorted).0)
  {
    hide Contenders, ShiftReduceOn, TwoReducesOn, ShiftReduceSettled, ReducesSettled;
    forall t: nat, s: nat, r: nat | ShiftReduceOn(m, k, t, s, r) ensures ShiftReduceSettled(m, p, Pass(p, sorted).0, t, s, r) {
      ShiftReduceLaw(m, p, k, sorted, t, s, r);
    }
    forall t: nat, r1: nat, r2: nat | TwoReducesOn(m, k, t, r1, r2) ensures ReducesSettled(p, Pass(p, sorted).0, t, r1, r2) {
      TwoReducesLaw(m, p, k, sorted, t, r1, r2);
    }
  }

  /** The declarations choose between any two actions a state is entitled to on one symbol. */
  ghost predicate DecidedAt(m: Analysed, p: Precedences, k: nat) {
    forall t: nat, kind: Kind, arg: nat, kind': Kind, arg': nat ::
      Entitled(m, k, t, kind, arg) && Entitled(m, k, t, kind', arg') && (kind != kind' || arg != arg') ==> EitherWay(p, t, kind, arg, kind', arg')
  }

  predicate EitherWay(p: Precedences, t: nat, kind: Kind, arg: nat, kind': Kind, arg': nat) {
    match (kind, kind')
    case (SHIFT, REDUCE) => !Undeclared(p, t, arg')
    case (REDUCE, SHIFT) => !Undeclared(p, t, arg)
    case (REDUCE, REDUCE) => !Level(p, arg, arg')
    case _ => false
  }

  lemma DecidedQuiet(m: Analysed, p: Precedences, k: nat, sorted: seq<Action>)
    requires NoNonassoc(p) && Contenders(m, k, sorted) && TokensDistinct(m.g) && DecidedAt(m, p, k)
    ensures Pass(p, sorted).1 == 0
  {
    Parts(m, k, sorted);
    hide Entitled, Contenders, DecidedAt, Pass;
    forall i, j | 0 <= i < j < |sorted| && sorted[i].sp == sorted[j].sp ensures Decided(p, sorted[i], sorted[j]) {
      var a, b := sorted[i], sorted[j];
      assert a in sorted && b in sorted && Resolvable(a, b) && !Is(b, a.sp, a.kind, a.arg);
      OnlyEntitled(m, k, sorted, a);
      OnlyEntitled(m, k, sorted, b);
      DecidedPair(m, p, k, a, b);
    }
    QuietWhenDecided(p, sorted);
  }

  lemma DecidedPair(m: Analysed, p: Precedences, k: nat, a: Action, b: Action)
    requires DecidedAt(m, p, k) && a.sp == b.sp && Resolvable(a, b) && !Is(b, a.sp, a.kind, a.arg)
    requires Entitled(m, k, a.sp, a.kind, a.arg) && Entitled(m, k, b.sp, b.kind, b.arg)
    ensures Decided(p, a, b)
  {
    hide Entitled;
  }

  /** The resolution pass of `FindActions` on one state. */
  method FindStateActions(m: Analysed, p: Precedences, k: nat) returns (aps: seq<Action>, nconflict: nat)
    requires Wf(m) && NoNonassoc(p) && k < |m.states|
    ensures Resolved(m, k, aps) && Elected(m, p, k, aps) && Settled(m, p, k, aps)
    ensures nconflict == Conflicts(aps)
    ensures p.prec == map[] && nconflict == 0 ==> ConflictFreeAt(m, k)
    ensures TokensDistinct(m.g) && DecidedAt(m, p, k) ==> nconflict == 0
  {
    hide Wf, Listed, DecidedAt, Settled, Entitled, Single, TokensDistinct;
    var raw := CollectActions(m, k);
    ActionCmpOrders();
    var list := MergeSort.Msort(ActionCmp, raw);
    SortedIsResolvable(m, k, raw, list);
    aps, nconflict := ResolveConflicts(p, list);
    PassResolved(m, p, k, list);
    assert ElectedFrom(m, p, k, aps, list);
    SortedSingle(raw, list, TokensDistinct(m.g));
    AllSettled(m, p, k, list);
    if TokensDistinct(m.g) && DecidedAt(m, p, k) { DecidedQuiet(m, p, k, list); }
    NoConflictsYet(list);
    PassCounts(p, list);
    if p.prec == map[] && nconflict == 0 { QuietIsFree(m, p, k, list); }
  }

  lemma {:induction false} NoConflictsYet(aps: seq<Action>)
    requires forall a :: a in aps ==> Live(a)
    ensures Conflicts(aps) == 0
  {
    if aps != [] {
      assert aps[0] in aps;
      NoConflictsYet(aps[1..]);
    }
  }

  lemma PassResolved(m: Analysed, p: Precedences, k: nat, sorted: seq<Action>)
    requires NoNonassoc(p) && Grouped(sorted) && AllResolvable(sorted)
    requires forall a :: a in sorted ==> Live(a) && Entitled(m, k, a.sp, a.kind, a.arg)
    requires forall sp: nat, kind: Kind, arg: nat :: Entitled(m, k, sp, kind, arg) ==> LiveOn(sorted, sp) != []
    ensures Resolved(m, k, Pass(p, sorted).0)
    ensures forall sp: nat :: LiveOn(sorted, sp) != [] ==> LiveOn(Pass(p, sorted).0, sp) == [Champion(p, LiveOn(sorted, sp))]
  {
    hide Entitled, Champion, Pass;
    var aps := Pass(p, sorted).0;
    PassWeaker(p, sorted);
    forall a | a in aps && Live(a) ensures Entitled(m, k, a.sp, a.kind, a.arg) {
      var i :| 0 <= i < |aps| && aps[i] == a;
      assert sorted[i] == a && sorted[i] in sorted;
    }
    forall sp: nat
      ensures |LiveOn(aps, sp)| <= 1
      ensures LiveOn(sorted, sp) != [] ==> LiveOn(aps, sp) == [Champion(p, LiveOn(sorted, sp))]
    {
      PassLeavesChampion(p, sorted, sp);
    }
  }
}
