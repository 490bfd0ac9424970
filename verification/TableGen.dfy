/** From resolved action lists to numbered, packed tables: compression over all states, the
    numbering of states, `compute_action`, and the table layout of `ReportTable`. */
module TableGen {
  import opened Grammars
  import opened Closures
  import opened Automata
  import opened StackInvariant
  import opened Driver
  import opened Wrappers
  import opened Actions
  import opened Compress
  import opened ActionLists
  import Machine
  import MergeSort

  function StartRules(g: Grammar): set<nat> { set r | 0 <= r < |g.rules| && g.rules[r].lhs == g.start }

  // ---- Compressed lists are sound ----

  /** What a live action of a compressed state list means.  `d` is the default symbol. */
  ghost predicate Meant(m: Analysed, k: nat, d: nat, a: Action) {
    || (a.sp != d && Entitled(m, k, a.sp, a.kind, a.arg))
    || (a.sp == d && a.kind == REDUCE && Ends(m.g, m.states, k, a.arg) && !IsStartRule(m.g, a.arg))
  }

  ghost predicate CompressedOk(m: Analysed, k: nat, c: Compressed) {
    && (forall a :: a in c.aps && Live(a) ==> Meant(m, k, m.g.nsymbol, a))
    && Deterministic(c.aps)
    && (forall sp: nat, kind: Kind, arg: nat :: sp != m.g.nsymbol && Entitled(m, k, sp, kind, arg) && m.g.nterminal <= sp ==> LiveOn(c.aps, sp) != [])
    && (c.auto ==> c.dflt.Some? && Forced(m.g, m.states, k, c.dflt.value))
    && (c.dflt.Some? ==> forall t: nat :: t != m.g.nsymbol && LiveOn(c.aps, t) == [] ==> Lookup(c.aps, t, m.g.nsymbol) == Some(Move(REDUCE, c.dflt.value)))
    && (c.dflt == None ==> LiveOn(c.aps, m.g.nsymbol) == [])
    && (c.dflt.Some? ==> Ends(m.g, m.states, k, c.dflt.value) && !IsStartRule(m.g, c.dflt.value))
  }

  lemma {:induction false} RetiredLive(aps: seq<Action>, best: nat, a: Action)
    requires a in Retired(aps, best) && Live(a)
    ensures a in aps && !IsReduceBy(a, best)
  {
    if a != Retired(aps, best)[0] { RetiredLive(aps[1..], best, a); }
  }

  lemma {:induction false} DefaultedLive(aps: seq<Action>, best: nat, d: nat, a: Action)
    requires a in Defaulted(aps, best, d) && Live(a)
    ensures a in aps || (a.sp == d && IsReduceBy(a, best))
  {
    if a != Defaulted(aps, best, d)[0] {
      if IsReduceBy(aps[0], best) {
        RetiredLive(aps[1..], best, a);
      } else {
        DefaultedLive(aps[1..], best, d, a);
      }
    }
  }

  lemma ReduceEnds(m: Analysed, k: nat, sp: nat, r: nat)
    requires Wf(m) && Entitled(m, k, sp, REDUCE, r)
    ensures Ends(m.g, m.states, k, r) && sp < m.g.nterminal && (IsStartRule(m.g, r) ==> sp == 0)
  {
    hide IsAutomaton, ValidGrammar, NoStartOnRhs;
    var c: nat :| ReducesAt(m, k, r, sp, c);
    assert m.cfgs[c] in m.cfgs;
    assert sp < m.g.nterminal;
    assert IsStartRule(m.g, r) ==> m.fws[c] <= {0};
  }

  /** The symbol after a dot is shifted. */
  lemma AwaitedShift(m: Analysed, k: nat, a: nat) returns (to: nat)
    requires Wf(m) && k < |m.states| && a < m.g.nsymbol && m.g.nterminal <= a
    requires exists y :: y in m.states[k].closed.items && Before(m.g, y, Nonterminal(a))
    ensures Edge(m.g, m.states, k, a, to)
  {
    var y :| y in m.states[k].closed.items && Before(m.g, y, Nonterminal(a));
    assert Complete(m.g, m.states, k);
    var sh :| sh in m.states[k].shifts && sh.sym == Nonterminal(a);
    to := sh.target;
  }

  /** On a nonterminal a resolved list has a shift, or the accept. */
  lemma NonterminalActions(m: Analysed, k: nat, a: Action)
    requires Wf(m) && k < |m.states| && m.g.nterminal <= a.sp && Entitled(m, k, a.sp, a.kind, a.arg)
    ensures a.kind == SHIFT || (a.kind == ACCEPT && a.sp == m.g.start)
  {
    hide IsAutomaton, ValidGrammar, NoStartOnRhs;
    if a.kind == REDUCE {
      ReduceEnds(m, k, a.sp, a.arg);
    }
  }

  /** In a state that can only take its default reduce, that rule is not empty: an empty rule would
      have been brought in by a configuration waiting to shift its left-hand side. */
  lemma AutoIsForced(m: Analysed, k: nat, aps: seq<Action>, c: Compressed)
    requires Wf(m) && k < |m.states| && Resolved(m, k, aps) && c.dflt.Some? && c.auto
    requires Ends(m.g, m.states, k, c.dflt.value) && !IsStartRule(m.g, c.dflt.value)
    requires forall a :: a in c.aps ==> a.kind != SHIFT
    requires forall sp: nat :: sp != m.g.nsymbol && LiveOn(aps, sp) != [] ==> Lookup(c.aps, sp, m.g.nsymbol) == Lookup(aps, sp, m.g.nsymbol)
    ensures Forced(m.g, m.states, k, c.dflt.value)
  {
    var r := c.dflt.value;
    if m.g.rules[r].rhs == [] {
      UndottedItem(m.g, m.an, m.states, k, Item(r, 0));
      var a := m.g.rules[r].lhs;
      assert ValidRule(m.g, m.g.rules[r]);
      var to := AwaitedShift(m, k, a);
      hide Wf;
      assert Entitled(m, k, a, SHIFT, to);
      assert LiveOn(aps, a) != [];
      ShiftSurvives(m, k, aps, a);
      NoShiftFound(c.aps, a, m.g.nsymbol);
      assert false;
    }
  }

  lemma ShiftSurvives(m: Analysed, k: nat, aps: seq<Action>, a: nat)
    requires Wf(m) && k < |m.states| && Resolved(m, k, aps) && m.g.nterminal <= a && a != m.g.start && LiveOn(aps, a) != []
    ensures LiveOn(aps, a)[0].kind == SHIFT
  {
    hide Wf, Deterministic;
    LiveOnMembers(aps, a);
    var x := LiveOn(aps, a)[0];
    assert x in LiveOn(aps, a);
    NonterminalActions(m, k, x);
  }

  lemma NoShiftFound(aps: seq<Action>, sp: nat, d: nat)
    requires forall a :: a in aps ==> a.kind != SHIFT
    ensures Lookup(aps, sp, d).Some? ==> Lookup(aps, sp, d).value.kind != SHIFT
  {
    LiveOnMembers(aps, sp);
    LiveOnMembers(aps, d);
    assert LiveOn(aps, sp) != [] ==> LiveOn(aps, sp)[0] in LiveOn(aps, sp);
    assert LiveOn(aps, d) != [] ==> LiveOn(aps, d)[0] in LiveOn(aps, d);
  }

  lemma CompressedIsOk(m: Analysed, k: nat, aps: seq<Action>, c: Compressed)
    requires Wf(m) && k < |m.states| && Resolved(m, k, aps) && LiveOn(aps, m.g.nsymbol) == []
    requires c.dflt == None ==> c.aps == aps && !c.auto
    requires c.dflt.Some? ==> c.dflt.value !in StartRules(m.g) && Count(aps, c.dflt.value) > 0
    requires c.dflt.Some? ==> multiset(c.aps) == multiset(Defaulted(aps, c.dflt.value, m.g.nsymbol))
    requires c.auto ==> forall a :: a in c.aps ==> a.kind != SHIFT
    requires forall sp: nat :: sp != m.g.nsymbol && LiveOn(aps, sp) != [] ==> Lookup(c.aps, sp, m.g.nsymbol) == Lookup(aps, sp, m.g.nsymbol)
    requires forall sp: nat :: sp != m.g.nsymbol && LiveOn(aps, sp) == [] ==>
      Lookup(c.aps, sp, m.g.nsymbol) == if c.dflt == None then None else Some(Move(REDUCE, c.dflt.value))
    requires Deterministic(c.aps)
    ensures CompressedOk(m, k, c)
  {
    if c.dflt.Some? {
      DefaultEnds(m, k, aps, c.dflt.value);
      if c.auto { AutoIsForced(m, k, aps, c); }
      MergeSort.RearrangedElements(c.aps, Defaulted(aps, c.dflt.value, m.g.nsymbol));
    }
    CompressedMeant(m, k, aps, c);
    hide Wf, Resolved, Defaulted, Count, Ends, Forced;
    NonterminalsCovered(m, k, aps, c);
    if c.dflt.Some? { DefaultFallsBack(m, aps, c); }
  }

  lemma DefaultFallsBack(m: Analysed, aps: seq<Action>, c: Compressed)
    requires c.dflt.Some? && Count(aps, c.dflt.value) > 0 && Deterministic(aps) && LiveOn(aps, m.g.nsymbol) == []
    requires multiset(c.aps) == multiset(Defaulted(aps, c.dflt.value, m.g.nsymbol))
    ensures forall t: nat :: t != m.g.nsymbol && LiveOn(c.aps, t) == [] ==> Lookup(c.aps, t, m.g.nsymbol) == Some(Move(REDUCE, c.dflt.value))
  {
    var d, best := m.g.nsymbol, c.dflt.value;
    DefaultEntry(aps, best, d);
    LookupSorted(Defaulted(aps, best, d), c.aps, d);
  }

  lemma DefaultEnds(m: Analysed, k: nat, aps: seq<Action>, r: nat)
    requires Wf(m) && Resolved(m, k, aps) && r !in StartRules(m.g) && Count(aps, r) > 0
    ensures Ends(m.g, m.states, k, r) && !IsStartRule(m.g, r)
  {
    hide Wf;
    CountZero(aps, r);
    var a :| a in aps && IsReduceBy(a, r);
    ReduceEnds(m, k, a.sp, r);
  }

  lemma CompressedMeant(m: Analysed, k: nat, aps: seq<Action>, c: Compressed)
    requires Resolved(m, k, aps) && LiveOn(aps, m.g.nsymbol) == []
    requires c.dflt == None ==> c.aps == aps
    requires c.dflt.Some? ==> forall a :: a in c.aps ==> a in Defaulted(aps, c.dflt.value, m.g.nsymbol)
    requires c.dflt.Some? ==> Ends(m.g, m.states, k, c.dflt.value) && !IsStartRule(m.g, c.dflt.value)
    ensures forall a :: a in c.aps && Live(a) ==> Meant(m, k, m.g.nsymbol, a)
  {
    hide Deterministic, Ends, Entitled, Defaulted;
    LiveOnMembers(aps, m.g.nsymbol);
    forall a | a in c.aps && Live(a) ensures Meant(m, k, m.g.nsymbol, a) {
      if c.dflt.Some? { DefaultedLive(aps, c.dflt.value, m.g.nsymbol, a); }
      if a in aps { assert a !in LiveOn(aps, m.g.nsymbol); }
    }
  }

  lemma NonterminalsCovered(m: Analysed, k: nat, aps: seq<Action>, c: Compressed)
    requires Wf(m) && k < |m.states| && Resolved(m, k, aps) && Deterministic(c.aps) && LiveOn(aps, m.g.nsymbol) == []
    requires c.dflt == None ==> c.aps == aps
    requires c.dflt.Some? ==> multiset(c.aps) == multiset(Defaulted(aps, c.dflt.value, m.g.nsymbol))
    ensures forall sp: nat, kind: Kind, arg: nat :: sp != m.g.nsymbol && Entitled(m, k, sp, kind, arg) && m.g.nterminal <= sp ==> LiveOn(c.aps, sp) != []
  {
    hide Wf, Entitled;
    forall sp: nat, kind: Kind, arg: nat | sp != m.g.nsymbol && Entitled(m, k, sp, kind, arg) && m.g.nterminal <= sp
      ensures LiveOn(c.aps, sp) != []
    {
      assert LiveOn(aps, sp) != [];
      if c.dflt.Some? {
        var best := c.dflt.value;
        LiveOnMembers(aps, sp);
        var x := LiveOn(aps, sp)[0];
        assert x in LiveOn(aps, sp);
        NonterminalActions(m, k, x);
        LiveOnDefaulted(aps, best, m.g.nsymbol, sp);
        ButNone(aps, best, sp);
        assert |LiveOn(aps, sp)| <= 1;
        LookupSorted(Defaulted(aps, best, m.g.nsymbol), c.aps, sp);
      }
    }
  }

  lemma NoDefaultYet(m: Analysed, k: nat, aps: seq<Action>)
    requires Wf(m) && k < |m.states| && Resolved(m, k, aps)
    ensures LiveOn(aps, m.g.nsymbol) == []
  {
    forall a | a in aps && Live(a) ensures a.sp != m.g.nsymbol { EntitledInRange(m, k, a); }
    NoLiveOn(aps, m.g.nsymbol);
  }

  lemma {:induction false} NoLiveOn(aps: seq<Action>, sp: nat)
    requires forall a :: a in aps && Live(a) ==> a.sp != sp
    ensures LiveOn(aps, sp) == []
  {
    if aps != [] {
      assert aps[0] in aps;
      NoLiveOn(aps[1..], sp);
    }
  }

  lemma EntitledInRange(m: Analysed, k: nat, a: Action)
    requires Wf(m) && k < |m.states| && Entitled(m, k, a.sp, a.kind, a.arg)
    ensures a.sp < m.g.nsymbol
  {
    if a.kind == SHIFT {
      ShiftsAreEdges(m, k, a.sp, a.arg);
    } else if a.kind == REDUCE {
      ReduceEnds(m, k, a.sp, a.arg);
    }
  }

  /** The rules as the driver sees them. */
  function RulesOf(g: Grammar): Machine.Rules {
    Machine.Rules(seq(|g.rules|, r requires 0 <= r < |g.rules| => g.rules[r].lhs),
                  seq(|g.rules|, r requires 0 <= r < |g.rules| => |g.rules[r].rhs|), g.nsymbol, g.nterminal)
  }

  lemma RulesOfOk(g: Grammar)
    requires ValidGrammar(g)
    ensures Machine.RulesOk(RulesOf(g))
  {
    forall r | 0 <= r < |g.rules| ensures g.nterminal <= g.rules[r].lhs < g.nsymbol { assert ValidRule(g, g.rules[r]); }
  }

  /** A state list and what compression made of it. */
  ghost predicate CompressedFrom(m: Analysed, aps: seq<Action>, c: Compressed) {
    && Machine.KeepsMoves(RulesOf(m.g), aps, c.aps)
    && (c.auto ==> c.dflt.Some? && Machine.OnlyReduces(RulesOf(m.g), c.aps, c.dflt.value))
    && DefaultChosen(aps, StartRules(m.g), c.dflt) && (c.auto <==> c.dflt.Some? && OnlyReduce(aps, c.dflt.value))
    && LiveOnDefault(c.aps, m.g.nsymbol, c.dflt)
  }

  lemma CompressedKeeps(m: Analysed, k: nat, aps: seq<Action>, c: Compressed)
    requires Wf(m) && k < |m.states| && Resolved(m, k, aps) && LiveOn(aps, m.g.nsymbol) == []
    requires c.dflt == None ==> c.aps == aps && !c.auto
    requires c.dflt.Some? ==> multiset(c.aps) == multiset(Defaulted(aps, c.dflt.value, m.g.nsymbol))
    requires DefaultChosen(aps, StartRules(m.g), c.dflt) && LiveOnDefault(c.aps, m.g.nsymbol, c.dflt) && (c.auto <==> c.dflt.Some? && OnlyReduce(aps, c.dflt.value))
    requires c.dflt.Some? ==> (OnlyReduce(c.aps, c.dflt.value) <==> OnlyReduce(aps, c.dflt.value))
    requires forall sp: nat :: sp != m.g.nsymbol && LiveOn(aps, sp) != [] ==> Lookup(c.aps, sp, m.g.nsymbol) == Lookup(aps, sp, m.g.nsymbol)
    requires Deterministic(c.aps) && CompressedOk(m, k, c)
    ensures CompressedFrom(m, aps, c)
  {
    var G, d := RulesOf(m.g), m.g.nsymbol;
    assert m.g.nterminal < d;
    forall t: nat | t < G.nterminal && Lookup(aps, t, d) != None ensures Lookup(c.aps, t, d) == Lookup(aps, t, d) {
    }
    hide Wf, Resolved, CompressedOk, DefaultChosen, LiveOnDefault;
    forall a: nat | G.nterminal <= a < d && Machine.Goto(aps, a) != None ensures Machine.Goto(c.aps, a) == Machine.Goto(aps, a) {
      if c.dflt.Some? { GotoKept(m, k, aps, c, a); }
    }
    if c.auto {
      forall t: nat | t < G.nterminal ensures Lookup(c.aps, t, d) == Some(Move(REDUCE, c.dflt.value)) {
        AutoMove(m, k, c, t);
      }
    }
  }

  lemma GotoKept(m: Analysed, k: nat, aps: seq<Action>, c: Compressed, a: nat)
    requires Wf(m) && k < |m.states| && Resolved(m, k, aps) && c.dflt.Some? && m.g.nterminal <= a < m.g.nsymbol && LiveOn(aps, a) != []
    requires multiset(c.aps) == multiset(Defaulted(aps, c.dflt.value, m.g.nsymbol))
    ensures LiveOn(c.aps, a) == LiveOn(aps, a)
  {
    hide Wf;
    var best := c.dflt.value;
    LiveOnMembers(aps, a);
    var x := LiveOn(aps, a)[0];
    assert x in LiveOn(aps, a);
    NonterminalActions(m, k, x);
    LiveOnDefaulted(aps, best, m.g.nsymbol, a);
    assert |LiveOn(aps, a)| <= 1;
    ButNone(aps, best, a);
    LookupSorted(Defaulted(aps, best, m.g.nsymbol), c.aps, a);
  }

  /** In an auto-reduce state every terminal finds the default. */
  lemma AutoMove(m: Analysed, k: nat, c: Compressed, t: nat)
    requires Wf(m) && k < |m.states| && CompressedOk(m, k, c) && c.dflt.Some? && t < m.g.nterminal
    requires forall a :: a in c.aps ==> a.kind != SHIFT && (a.kind == REDUCE ==> a.arg == c.dflt.value)
    ensures Lookup(c.aps, t, m.g.nsymbol) == Some(Move(REDUCE, c.dflt.value))
  {
    assert m.g.nterminal <= m.g.start < m.g.nsymbol;
    hide Wf, Deterministic;
    LiveOnMembers(c.aps, t);
    if LiveOn(c.aps, t) != [] {
      var x := LiveOn(c.aps, t)[0];
      assert x in LiveOn(c.aps, t);
      assert Meant(m, k, m.g.nsymbol, x);
      assert x.kind != ACCEPT;
    }
  }

  /** The first pass of `CompressTables` over all states. */
  method CompressAll(m: Analysed, lists: seq<seq<Action>>) returns (cs: seq<Compressed>)
    requires Wf(m) && |lists| == |m.states| && forall k :: 0 <= k < |lists| ==> Resolved(m, k, lists[k])
    ensures |cs| == |lists| && forall k :: 0 <= k < |cs| ==> CompressedOk(m, k, cs[k]) && CompressedFrom(m, lists[k], cs[k])
  {
    hide Wf, CompressedOk, CompressedFrom;
    cs := [];
    for k := 0 to |lists|
      invariant |cs| == k && forall j :: 0 <= j < k ==> CompressedOk(m, j, cs[j]) && CompressedFrom(m, lists[j], cs[j])
    {
      NoDefaultYet(m, k, lists[k]);
      var c := CompressState(lists[k], StartRules(m.g), m.g.nsymbol);
      CompressedIsOk(m, k, lists[k], c);
      CompressedKeeps(m, k, lists[k], c);
      cs := cs + [c];
    }
  }

  // ---- Fused lists ----

  function AutoMap(cs: seq<Compressed>): map<nat, nat> {
    map k | 0 <= k < |cs| && cs[k].auto && cs[k].dflt.Some? :: cs[k].dflt.value
  }

  /** What a live action of a finished list means. */
  ghost predicate Final(m: Analysed, auto: map<nat, nat>, k: nat, a: Action) {
    match a.kind
    case SHIFT => Edge(m.g, m.states, k, a.sp, a.arg) && a.arg !in auto && a.sp < m.g.nsymbol
    case SHIFTREDUCE => a.sp < m.g.nsymbol && exists to :: Edge(m.g, m.states, k, a.sp, to) && Forced(m.g, m.states, to, a.arg)
    case REDUCE =>
      && Ends(m.g, m.states, k, a.arg)
      && (if a.sp == m.g.nsymbol then !IsStartRule(m.g, a.arg) else a.sp < m.g.nterminal && (IsStartRule(m.g, a.arg) ==> a.sp == 0))
    case ACCEPT => k == 0 && a.sp == m.g.start
    case _ => false
  }

  ghost predicate FinalOk(m: Analysed, auto: map<nat, nat>, k: nat, aps: seq<Action>) {
    && (forall a :: a in aps && Live(a) ==> Final(m, auto, k, a))
    && Deterministic(aps)
    && (forall sp: nat, kind: Kind, arg: nat :: sp != m.g.nsymbol && Entitled(m, k, sp, kind, arg) && m.g.nterminal <= sp ==> LiveOn(aps, sp) != [])
  }

  lemma FusedIsFinal(m: Analysed, auto: map<nat, nat>, k: nat, a: Action)
    requires Wf(m) && k < |m.states| && Live(a) && Meant(m, k, m.g.nsymbol, a)
    requires forall s :: s in auto ==> Forced(m.g, m.states, s, auto[s])
    ensures Final(m, auto, k, FusedAction(a, auto))
  {
    hide Wf;
    if a.sp != m.g.nsymbol {
      EntitledInRange(m, k, a);
      if a.kind == REDUCE { ReduceEnds(m, k, a.sp, a.arg); }
    }
  }

  lemma {:induction false} FusedMembers(aps: seq<Action>, auto: map<nat, nat>, b: Action)
    requires b in Fused(aps, auto)
    ensures exists a :: a in aps && b == FusedAction(a, auto)
  {
    if b == Fused(aps, auto)[0] {
      assert aps[0] in aps;
    } else {
      FusedMembers(aps[1..], auto, b);
      var a :| a in aps[1..] && b == FusedAction(a, auto);
      assert a in aps;
    }
  }

  lemma FusedOk(m: Analysed, auto: map<nat, nat>, k: nat, c: Compressed)
    requires Wf(m) && k < |m.states| && CompressedOk(m, k, c)
    requires forall s :: s in auto ==> Forced(m.g, m.states, s, auto[s])
    ensures FinalOk(m, auto, k, Fused(c.aps, auto))
  {
    hide Wf, Forced, Meant, Final, Entitled;
    forall b | b in Fused(c.aps, auto) && Live(b) ensures Final(m, auto, k, b) {
      FusedMembers(c.aps, auto, b);
      var a :| a in c.aps && b == FusedAction(a, auto);
      FusedIsFinal(m, auto, k, a);
    }
    forall sp: nat ensures LiveOn(Fused(c.aps, auto), sp) == Fused(LiveOn(c.aps, sp), auto) {
      FusedLiveOn(c.aps, auto, sp);
    }
  }

  lemma AutosForced(m: Analysed, cs: seq<Compressed>)
    requires forall k :: 0 <= k < |cs| ==> CompressedOk(m, k, cs[k])
    ensures forall s :: s in AutoMap(cs) ==> Forced(m.g, m.states, s, AutoMap(cs)[s])
  {
    hide Forced, Meant, Deterministic, Entitled;
    forall s | s in AutoMap(cs) ensures Forced(m.g, m.states, s, AutoMap(cs)[s]) {
      assert CompressedOk(m, s, cs[s]);
    }
  }

  /** The second pass of `CompressTables`. */
  method FuseAll(m: Analysed, cs: seq<Compressed>) returns (auto: map<nat, nat>, lists: seq<seq<Action>>)
    requires Wf(m) && |cs| == |m.states| && forall k :: 0 <= k < |cs| ==> CompressedOk(m, k, cs[k])
    ensures auto == AutoMap(cs) && |lists| == |cs|
    ensures forall k :: 0 <= k < |cs| ==> lists[k] == Fused(cs[k].aps, auto) && FinalOk(m, auto, k, lists[k])
  {
    hide Wf, CompressedOk, FinalOk, Forced, Fused;
    auto := AutoMap(cs);
    AutosForced(m, cs);
    lists := [];
    for k := 0 to |cs|
      invariant |lists| == k
      invariant forall j :: 0 <= j < k ==> lists[j] == Fused(cs[j].aps, auto) && FinalOk(m, auto, j, lists[j])
    {
      var f := FuseShifts(cs[k].aps, auto);
      FusedOk(m, auto, k, cs[k]);
      lists := lists + [f];
    }
  }

  // ---- Starting the machine ----

  function Start(input: seq<nat>): Machine.Conf { Machine.Conf([Machine.AtState(0)], input) }

  // ---- Numbering states and actions ----

  predicate InSpan(a: Action, lo: nat, hi: nat) { Live(a) && lo <= a.sp < hi }

  /** How many live actions a list has on the symbols in `lo..hi`. */
  function Population(aps: seq<Action>, lo: nat, hi: nat): nat {
    if aps == [] then 0 else (if InSpan(aps[0], lo, hi) then 1 else 0) + Population(aps[1..], lo, hi)
  }

  datatype StateSize = StateSize(state: nat, ntActs: nat, tknActs: nat)

  /** `stateResortCompare` */
  function ResortCmp(a: StateSize, b: StateSize): int {
    if b.ntActs != a.ntActs then b.ntActs - a.ntActs
    else if b.tknActs != a.tknActs then b.tknActs - a.tknActs
    else b.state - a.state
  }

  lemma ResortCmpOrders()
    ensures MergeSort.TotalPreorder(ResortCmp)
  {
  }

  method SizesOf(lists: seq<seq<Action>>, nterminal: nat, nsymbol: nat) returns (sizes: seq<StateSize>)
    requires lists != []
    ensures |sizes| == |lists| - 1
    ensures forall k :: 0 <= k < |sizes| ==> SizeAt(lists, nterminal, nsymbol, k + 1, sizes[k])
  {
    sizes := [];
    for k := 1 to |lists|
      invariant |sizes| == k - 1
      invariant forall j :: 0 <= j < |sizes| ==> SizeAt(lists, nterminal, nsymbol, j + 1, sizes[j])
    {
      sizes := sizes + [StateSize(k, Population(lists[k], nterminal, nsymbol), Population(lists[k], 0, nterminal))];
    }
  }

  /** A rearrangement of the states after the first still lists each of them once. */
  lemma RearrangedStates(sizes: seq<StateSize>, sorted: seq<StateSize>)
    requires forall k :: 0 <= k < |sizes| ==> sizes[k].state == k + 1
    requires multiset(sizes) == multiset(sorted)
    ensures |sorted| == |sizes| && forall n :: 0 <= n < |sorted| ==> 0 < sorted[n].state <= |sizes|
    ensures forall i, j :: 0 <= i < j < |sorted| ==> sorted[i].state != sorted[j].state
    ensures forall x :: x in sizes <==> x in sorted
  {
    assert |multiset(sizes)| == |sizes| && |multiset(sorted)| == |sorted|;
    assert MergeSort.NoRepeats(sizes);
    MergeSort.RearrangedElements(sizes, sorted);
    forall n | 0 <= n < |sorted| ensures 0 < sorted[n].state <= |sizes| && sorted[n] == sizes[sorted[n].state - 1] {
      assert sorted[n] in sorted;
      var k :| 0 <= k < |sizes| && sizes[k] == sorted[n];
    }
  }

  /** States with more nonterminal actions, then more terminal actions, come first. */
  predicate Resorted(lists: seq<seq<Action>>, nterminal: nat, nsymbol: nat, order: seq<nat>) {
    forall i, j :: 1 <= i < j < |order| && order[i] < |lists| && order[j] < |lists| ==> Busier(lists[order[i]], lists[order[j]], nterminal, nsymbol)
  }

  predicate Busier(a: seq<Action>, b: seq<Action>, nterminal: nat, nsymbol: nat) {
    || Population(a, nterminal, nsymbol) > Population(b, nterminal, nsymbol)
    || (Population(a, nterminal, nsymbol) == Population(b, nterminal, nsymbol) && Population(a, 0, nterminal) >= Population(b, 0, nterminal))
  }

  /** `ResortStates`: state 0 first, the others by size, and the auto-reduce states at the end
      of that order lose their number.  Every other state keeps one, even where the order mixes
      auto-reduce states with states that have no action at all. */
  method ResortStates(lists: seq<seq<Action>>, auto: map<nat, nat>, nterminal: nat, nsymbol: nat) returns (order: seq<nat>, num: map<nat, nat>)
    requires lists != []
    ensures 0 < |order| <= |lists| && order[0] == 0 && forall n :: 0 <= n < |order| ==> order[n] < |lists|
    ensures forall k :: 0 <= k < |lists| && (k == 0 || k !in auto) ==> k in num
    ensures forall k :: k in num ==> num[k] < |order| && order[num[k]] == k
    ensures Resorted(lists, nterminal, nsymbol, order)
    ensures |order| > 1 ==> order[|order| - 1] !in auto
  {
    hide Population, Resorted, Busier;
    var all := SortStates(lists, nterminal, nsymbol);
    order := TrimAuto(all, auto);
    num := NumberOf(order);
    forall k | 0 <= k < |lists| && (k == 0 || k !in auto) ensures k in num {
      assert k in all;
      var n :| 0 <= n < |all| && all[n] == k;
      assert n < |order| && order[n] == k;
    }
    forall n | 0 <= n < |order| ensures order[n] < |lists| { assert all[n] in all; }
    ResortedPrefix(lists, nterminal, nsymbol, all, order);
  }

  lemma ResortedPrefix(lists: seq<seq<Action>>, nterminal: nat, nsymbol: nat, all: seq<nat>, order: seq<nat>)
    requires order <= all && Resorted(lists, nterminal, nsymbol, all)
    ensures Resorted(lists, nterminal, nsymbol, order)
  {
    hide Busier;
  }

  /** Drop the auto-reduce states at the end, except state 0. */
  method TrimAuto(all: seq<nat>, auto: map<nat, nat>) returns (order: seq<nat>)
    requires all != []
    ensures 0 < |order| <= |all| && order <= all
    ensures forall n :: |order| <= n < |all| ==> all[n] in auto
    ensures |order| > 1 ==> order[|order| - 1] !in auto
  {
    order := all;
    while |order| > 1 && order[|order| - 1] in auto
      invariant 0 < |order| <= |all| && order <= all
      invariant forall n :: |order| <= n < |all| ==> all[n] in auto
    {
      order := order[..|order| - 1];
    }
  }

  method SortStates(lists: seq<seq<Action>>, nterminal: nat, nsymbol: nat) returns (order: seq<nat>)
    requires lists != []
    ensures |order| == |lists| && order[0] == 0 && forall k: nat :: k in order <==> k < |lists|
    ensures forall i, j :: 0 <= i < j < |order| ==> order[i] != order[j]
    ensures Resorted(lists, nterminal, nsymbol, order)
  {
    hide Population, Resorted;
    var sizes := SizesOf(lists, nterminal, nsymbol);
    ResortCmpOrders();
    var sorted := MergeSort.Msort(ResortCmp, sizes);
    hide MergeSort.Sorted, MergeSort.TotalPreorder;
    order := OrderOf(sizes, sorted, lists, nterminal, nsymbol);
    RearrangedStates(sizes, sorted);
    forall k: nat | k < |lists| ensures k in order {
      if k > 0 {
        assert sizes[k - 1] in sorted;
        var n :| 0 <= n < |sorted| && sorted[n] == sizes[k - 1];
        assert order[n + 1] == k;
      }
    }
  }

  method OrderOf(ghost sizes: seq<StateSize>, sorted: seq<StateSize>, ghost lists: seq<seq<Action>>, ghost nterminal: nat, ghost nsymbol: nat) returns (order: seq<nat>)
    requires lists != [] && |sizes| == |lists| - 1 && multiset(sizes) == multiset(sorted) && MergeSort.Sorted(ResortCmp, sorted)
    requires forall k :: 0 <= k < |sizes| ==> SizeAt(lists, nterminal, nsymbol, k + 1, sizes[k])
    ensures |order| == |sorted| + 1 == |lists| && order[0] == 0 && forall n :: 0 <= n < |sorted| ==> order[n + 1] == sorted[n].state
    ensures forall n :: 0 <= n < |order| ==> order[n] < |lists|
    ensures forall i, j :: 0 <= i < j < |order| ==> order[i] != order[j]
    ensures Resorted(lists, nterminal, nsymbol, order)
  {
    order := [0] + seq(|sorted|, n requires 0 <= n < |sorted| => sorted[n].state);
    RearrangedStates(sizes, sorted);
    SortedBusier(sizes, sorted, lists, nterminal, nsymbol, order);
    hide SizeAt, Resorted, MergeSort.Sorted;
  }

  lemma SortedBusier(sizes: seq<StateSize>, sorted: seq<StateSize>, lists: seq<seq<Action>>, nterminal: nat, nsymbol: nat, order: seq<nat>)
    requires |sizes| == |lists| - 1 && (forall x :: x in sizes <==> x in sorted) && MergeSort.Sorted(ResortCmp, sorted)
    requires forall k :: 0 <= k < |sizes| ==> SizeAt(lists, nterminal, nsymbol, k + 1, sizes[k])
    requires |order| == |sorted| + 1 && forall n :: 0 <= n < |sorted| ==> order[n + 1] == sorted[n].state
    ensures Resorted(lists, nterminal, nsymbol, order)
  {
    hide SizeAt, Busier, ResortCmp;
    forall n | 0 <= n < |sorted| ensures SizeAt(lists, nterminal, nsymbol, order[n + 1], sorted[n]) {
      SizeOfSorted(sizes, sorted, lists, nterminal, nsymbol, n);
    }
    forall i, j | 1 <= i < j < |order| && order[i] < |lists| && order[j] < |lists| ensures Busier(lists[order[i]], lists[order[j]], nterminal, nsymbol) {
      assert SizeAt(lists, nterminal, nsymbol, order[i - 1 + 1], sorted[i - 1]);
      assert SizeAt(lists, nterminal, nsymbol, order[j - 1 + 1], sorted[j - 1]);
      BusierBySize(lists, nterminal, nsymbol, order[i], order[j], sorted[i - 1], sorted[j - 1]);
    }
  }

  lemma SizeOfSorted(sizes: seq<StateSize>, sorted: seq<StateSize>, lists: seq<seq<Action>>, nterminal: nat, nsymbol: nat, n: nat)
    requires n < |sorted| && forall x :: x in sizes <==> x in sorted
    requires forall k :: 0 <= k < |sizes| ==> SizeAt(lists, nterminal, nsymbol, k + 1, sizes[k])
    ensures SizeAt(lists, nterminal, nsymbol, sorted[n].state, sorted[n])
  {
    assert sorted[n] in sizes;
    var k :| 0 <= k < |sizes| && sizes[k] == sorted[n];
  }

  predicate SizeAt(lists: seq<seq<Action>>, nterminal: nat, nsymbol: nat, k: nat, x: StateSize) {
    && k < |lists| && x.state == k
    && x.ntActs == Population(lists[k], nterminal, nsymbol) && x.tknActs == Population(lists[k], 0, nterminal)
  }

  lemma BusierBySize(lists: seq<seq<Action>>, nterminal: nat, nsymbol: nat, i: nat, j: nat, x: StateSize, y: StateSize)
    requires SizeAt(lists, nterminal, nsymbol, i, x) && SizeAt(lists, nterminal, nsymbol, j, y) && ResortCmp(x, y) <= 0
    ensures Busier(lists[i], lists[j], nterminal, nsymbol)
  {
  }

  method NumberOf(order: seq<nat>) returns (num: map<nat, nat>)
    requires forall i, j :: 0 <= i < j < |order| ==> order[i] != order[j]
    ensures forall k :: k in num <==> k in order
    ensures forall k :: k in num ==> num[k] < |order| && order[num[k]] == k
  {
    num := map[];
    for n := 0 to |order|
      invariant forall k :: k in num <==> k in order[..n]
      invariant forall k :: k in num ==> num[k] < n && order[num[k]] == k
    {
      assert order[..n + 1] == order[..n] + [order[n]];
      num := num[order[n] := n];
    }
    assert order[..|order|] == order;
  }

  datatype Numbers = Numbers(num: map<nat, nat>, nterminal: nat, minShiftReduce: nat, errAction: nat, accAction: nat, minReduce: nat)

  /** `compute_action` */
  function Code(N: Numbers, a: Action): int {
    match a.kind
    case SHIFT => if a.arg in N.num then N.num[a.arg] else -1
    case SHIFTREDUCE => if a.sp >= N.nterminal then N.minReduce + a.arg else N.minShiftReduce + a.arg
    case REDUCE => N.minReduce + a.arg
    case ERROR => N.errAction
    case ACCEPT => N.accAction
    case _ => -1
  }

  /** What the packed table must answer for a terminal: the action, else the default, else error. */
  function TokenAnswer(N: Numbers, aps: seq<Action>, t: nat, d: nat): int {
    if LiveOn(aps, t) != [] then Code(N, LiveOn(aps, t)[0])
    else if LiveOn(aps, d) != [] then Code(N, LiveOn(aps, d)[0])
    else N.errAction
  }
}
