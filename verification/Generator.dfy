/** The whole generator, and the parser it produces. */
module Generator {
  import opened Wrappers
  import opened Grammars
  import opened FirstSets
  import opened Closures
  import opened Automata
  import opened StackInvariant
  import opened Driver
  import opened FollowSets
  import opened Actions
  import opened Compress
  import opened Lookaheads
  import opened ActionLists
  import opened ActionTable
  import opened TableGen
  import opened Packing
  import Trees
  import Machine
  import Completeness
  import CompressionRuns
  import LookaheadPaths
  import opened DriverRuns
  import opened Turns

  // ---- The codes of finished lists are sound ----

  /** Numbers consistent with a numbering of the states. */
  ghost predicate NumbersOk(m: Analysed, auto: map<nat, nat>, order: seq<nat>, N: Numbers) {
    && N.nterminal == m.g.nterminal && |order| <= N.minShiftReduce && N.errAction == N.minShiftReduce + |m.g.rules|
    && N.accAction == N.errAction + 1 && N.minReduce == N.errAction + 3
    && (forall k :: 0 <= k < |m.states| && k !in auto ==> k in N.num)
    && (forall k :: k in N.num ==> N.num[k] < |order| && order[N.num[k]] == k)
  }

  /** A code that may stand in the row of state `s` under terminal `t`. */
  ghost predicate TokenCodeOk(m: Analysed, N: Numbers, order: seq<nat>, s: nat, t: nat, c: int) {
    || c == N.errAction
    || (0 <= c < |order| && Edge(m.g, m.states, s, t, order[c]))
    || (N.minShiftReduce <= c < N.errAction && exists to :: Edge(m.g, m.states, s, t, to) && Forced(m.g, m.states, to, c - N.minShiftReduce))
    || (N.minReduce <= c && Ends(m.g, m.states, s, c - N.minReduce) && (IsStartRule(m.g, c - N.minReduce) ==> t == 0))
  }

  lemma EdgeTarget(m: Analysed, k: nat, major: nat, to: nat)
    requires Wf(m) && Edge(m.g, m.states, k, major, to)
    ensures 0 < to < |m.states|
  {
    var sh :| sh in m.states[k].shifts && Covers(m.g, sh.sym, major) && sh.target == to;
    ShiftFits(m.g, m.an, m.states, k, sh);
  }

  lemma FinalCode(m: Analysed, auto: map<nat, nat>, order: seq<nat>, N: Numbers, k: nat, a: Action)
    requires Wf(m) && NumbersOk(m, auto, order, N) && Final(m, auto, k, a)
    ensures Code(N, a) >= 0
    ensures a.sp < m.g.nterminal ==> TokenCodeOk(m, N, order, k, a.sp, Code(N, a))
    ensures a.sp == m.g.nsymbol ==> forall t: nat :: TokenCodeOk(m, N, order, k, t, Code(N, a))
  {
    if a.kind == SHIFT {
      EdgeTarget(m, k, a.sp, a.arg);
      hide Wf, Edge, Forced, Ends;
      assert a.arg in N.num;
    } else {
      assert m.g.nterminal <= m.g.start < m.g.nsymbol;
      hide Wf, Edge;
    }
  }

  /** Every terminal gets a sound answer, explicit, by default, or an error. */
  lemma AnswerOk(m: Analysed, auto: map<nat, nat>, order: seq<nat>, N: Numbers, k: nat, aps: seq<Action>, t: nat)
    requires Wf(m) && NumbersOk(m, auto, order, N) && FinalOk(m, auto, k, aps) && t < m.g.nterminal
    ensures TokenCodeOk(m, N, order, k, t, TokenAnswer(N, aps, t, m.g.nsymbol))
  {
    hide Wf, NumbersOk, Final, TokenCodeOk, Code, Deterministic, Entitled;
    var d := m.g.nsymbol;
    LiveOnMembers(aps, t);
    LiveOnMembers(aps, d);
    if LiveOn(aps, t) != [] {
      var a := LiveOn(aps, t)[0];
      assert a in LiveOn(aps, t);
      FinalCode(m, auto, order, N, k, a);
    } else if LiveOn(aps, d) != [] {
      var a := LiveOn(aps, d)[0];
      assert a in LiveOn(aps, d);
      FinalCode(m, auto, order, N, k, a);
    } else {
      ErrorOk(m, N, order, k, t);
    }
  }

  lemma ErrorOk(m: Analysed, N: Numbers, order: seq<nat>, s: nat, t: nat)
    ensures TokenCodeOk(m, N, order, s, t, N.errAction)
  {
  }

  lemma FinalPositive(m: Analysed, auto: map<nat, nat>, order: seq<nat>, N: Numbers, k: nat, aps: seq<Action>)
    requires Wf(m) && NumbersOk(m, auto, order, N) && FinalOk(m, auto, k, aps)
    ensures CodesPositive(N, aps)
  {
    hide Wf, NumbersOk, Final, Code, Deterministic, Entitled, TokenCodeOk;
    forall a | a in aps && Live(a) ensures Code(N, a) >= 0 { FinalCode(m, auto, order, N, k, a); }
  }

  /** A code that may stand in the row of state `s` under a nonterminal. */
  ghost predicate GotoCodeOk(m: Analysed, N: Numbers, order: seq<nat>, s: nat, a: nat, c: int) {
    || (0 <= c < |order| && Edge(m.g, m.states, s, a, order[c]))
    || (N.minReduce <= c && exists to :: Edge(m.g, m.states, s, a, to) && Forced(m.g, m.states, to, c - N.minReduce))
  }

  lemma GotoFinal(m: Analysed, auto: map<nat, nat>, order: seq<nat>, N: Numbers, k: nat, aps: seq<Action>, a: nat)
    requires Wf(m) && NumbersOk(m, auto, order, N) && k < |m.states| && FinalOk(m, auto, k, aps)
    requires exists y :: y in m.states[k].closed.items && Before(m.g, y, Nonterminal(a))
    ensures m.g.nterminal <= a < m.g.nsymbol && LiveOn(aps, a) != []
    ensures GotoCodeOk(m, N, order, k, a, Code(N, LiveOn(aps, a)[0]))
  {
    AwaitedInRange(m, k, a);
    var to := AwaitedShift(m, k, a);
    assert Entitled(m, k, a, SHIFT, to);
    hide Wf, NumbersOk, Entitled, Final, Edge, GotoCodeOk, Code, Deterministic;
    LiveOnMembers(aps, a);
    var x := LiveOn(aps, a)[0];
    assert x in LiveOn(aps, a);
    GotoCodeIsOk(m, auto, order, N, k, x);
  }

  lemma GotoCodeIsOk(m: Analysed, auto: map<nat, nat>, order: seq<nat>, N: Numbers, k: nat, x: Action)
    requires Wf(m) && NumbersOk(m, auto, order, N) && Final(m, auto, k, x) && m.g.nterminal <= x.sp < m.g.nsymbol && x.sp != m.g.start
    ensures GotoCodeOk(m, N, order, k, x.sp, Code(N, x))
  {
    if x.kind == SHIFT { EdgeTarget(m, k, x.sp, x.arg); }
    hide Wf, Edge, Forced, Ends;
  }

  lemma AwaitedInRange(m: Analysed, k: nat, a: nat)
    requires Wf(m) && k < |m.states|
    requires exists y :: y in m.states[k].closed.items && Before(m.g, y, Nonterminal(a))
    ensures m.g.nterminal <= a < m.g.nsymbol && a != m.g.start
  {
    hide IsAutomaton;
    var y :| y in m.states[k].closed.items && Before(m.g, y, Nonterminal(a));
    assert ValidRule(m.g, m.g.rules[y.rule]);
    assert ValidSymbol(m.g, m.g.rules[y.rule].rhs[y.dot]);
  }

  /** State 0 accepts on the start symbol. */
  lemma StartFinal(m: Analysed, auto: map<nat, nat>, N: Numbers, aps: seq<Action>)
    requires Wf(m) && FinalOk(m, auto, 0, aps)
    ensures LiveOn(aps, m.g.start) != [] && Code(N, LiveOn(aps, m.g.start)[0]) == N.accAction
  {
    assert Entitled(m, 0, m.g.start, ACCEPT, 0);
    LiveOnMembers(aps, m.g.start);
    var x := LiveOn(aps, m.g.start)[0];
    assert x in LiveOn(aps, m.g.start);
    assert Final(m, auto, 0, x);
    NoStartEdge(m, 0);
  }

  lemma NoStartEdge(m: Analysed, k: nat)
    requires Wf(m) && k < |m.states|
    ensures forall to :: !Edge(m.g, m.states, k, m.g.start, to)
  {
    forall to ensures !Edge(m.g, m.states, k, m.g.start, to) {
      if Edge(m.g, m.states, k, m.g.start, to) {
        NothingElseOnStart(m, k, Action(m.g.start, SHIFT, to, 0));
        assert false;
      }
    }
  }

  // ---- Assembling the tables ----

  /** Everything the tables are computed from. */
  datatype Parts = Parts(N: Numbers, order: seq<nat>, rows: seq<seq<Action>>, ofs: seq<Offsets>, t: seq<Slot>, mem: Memory, nAction: nat, nact: nat)

  /** The entry for states without nonterminal actions: one below the least offset in use. */
  function LeastOffset(ofs: seq<Offsets>): int {
    if ofs == [] then 0
    else if ofs[0].nonterminal.Some? && ofs[0].nonterminal.value < LeastOffset(ofs[1..]) then ofs[0].nonterminal.value
    else LeastOffset(ofs[1..])
  }

  function GotoOffset(o: Offsets, none: int): int { if o.nonterminal.Some? then o.nonterminal.value else none }

  /** `yy_default[]` */
  function DefaultCode(N: Numbers, aps: seq<Action>, d: nat): int {
    if LiveOn(aps, d) != [] then Code(N, LiveOn(aps, d)[0]) else N.errAction
  }

  /** The arrays and constants written by `ReportTable`. */
  function Assemble(g: Grammar, P: Parts): (T: Tables)
    requires |P.ofs| == |P.rows| == |P.order|
  {
    var n, N := |P.order|, P.N;
    Tables(n, |g.rules|, g.nterminal, N.minShiftReduce, N.errAction, N.accAction, N.accAction + 1, N.minReduce,
           YyAction(P.t, P.mem, P.nact, N.accAction + 1),
           YyLookahead(P.t, P.mem, P.nAction, P.nact, g.nterminal, g.nsymbol),
           seq(n, i requires 0 <= i < n => TokenOffset(P.ofs[i], P.nact)),
           seq(n, i requires 0 <= i < n => GotoOffset(P.ofs[i], LeastOffset(P.ofs) - 1)),
           seq(n, i requires 0 <= i < n => DefaultCode(N, P.rows[i], g.nsymbol)),
           seq(|g.rules|, r requires 0 <= r < |g.rules| => g.rules[r].lhs),
           seq(|g.rules|, r requires 0 <= r < |g.rules| => |g.rules[r].rhs|))
  }

  /** The parts fit together: state numbers, finished lists, and a packed table holding them. */
  ghost predicate PartsOk(m: Analysed, auto: map<nat, nat>, placed: seq<Placement>, P: Parts) {
    && |P.ofs| == |P.rows| == |P.order| > 0 && P.order[0] == 0 && NumbersOk(m, auto, P.order, P.N)
    && Layout(P.t, P.mem, P.nAction, P.nact, m.g.nterminal, m.g.nsymbol, placed)
    && forall n :: 0 <= n < |P.order| ==> RowOk(m, auto, placed, P, n)
  }

  ghost predicate RowOk(m: Analysed, auto: map<nat, nat>, placed: seq<Placement>, P: Parts, n: nat)
    requires |P.ofs| == |P.rows| == |P.order| && n < |P.order|
  {
    && P.order[n] < |m.states| && FinalOk(m, auto, P.order[n], P.rows[n])
    && Packed(P.N, m.g.nterminal, m.g.nsymbol, placed, P.rows[n], P.ofs[n])
  }

  function MeaningOf(m: Analysed, order: seq<nat>): Meaning { Meaning(m.g, m.an, m.states, order) }

  /** A terminal entry read through the arrays is the answer of the state's list. */
  lemma TokenEntry(m: Analysed, auto: map<nat, nat>, placed: seq<Placement>, P: Parts, n: nat, t: nat)
    requires Wf(m) && PartsOk(m, auto, placed, P) && n < |P.order| && t < m.g.nterminal
    ensures ShiftReadable(Assemble(m.g, P), t, n)
    ensures TokenCode(Assemble(m.g, P), t, n) == TokenAnswer(P.N, P.rows[n], t, m.g.nsymbol)
  {
    assert RowOk(m, auto, placed, P, n);
    FinalPositive(m, auto, P.order, P.N, P.order[n], P.rows[n]);
    TokenRead(P.N, P.t, P.mem, P.nAction, P.nact, m.g.nterminal, m.g.nsymbol, P.N.accAction + 1, placed, P.rows[n], P.ofs[n], t);
    hide Wf, NumbersOk, Layout, Packed, FinalOk, CodesPositive, LiveOn, Code, LeastOffset, GotoOffset, TokenOffset, YyAction, YyLookahead;
  }

  lemma TokenRow(m: Analysed, auto: map<nat, nat>, placed: seq<Placement>, P: Parts, n: nat, t: nat)
    requires Wf(m) && PartsOk(m, auto, placed, P) && n < |P.order| && t < m.g.nterminal
    ensures TokenSound(MeaningOf(m, P.order), Assemble(m.g, P), n, t)
  {
    TokenEntry(m, auto, placed, P, n, t);
    assert RowOk(m, auto, placed, P, n);
    AnswerOk(m, auto, P.order, P.N, P.order[n], P.rows[n], t);
    hide Wf, Layout, Packed, FinalOk, TokenAnswer, TokenCode, ShiftReadable, TokenSound, TokenCodeOk, Assemble;
    AnswerSound(m, P, n, t);
  }

  lemma AnswerSound(m: Analysed, P: Parts, n: nat, t: nat)
    requires |P.ofs| == |P.rows| == |P.order| && n < |P.order| && ShiftReadable(Assemble(m.g, P), t, n)
    requires TokenCodeOk(m, P.N, P.order, P.order[n], t, TokenCode(Assemble(m.g, P), t, n))
    ensures TokenSound(MeaningOf(m, P.order), Assemble(m.g, P), n, t)
  {
    hide TokenCode, ShiftReadable, Edge, Forced, Ends, YyAction, YyLookahead, LeastOffset;
  }

  lemma GotoEntry(m: Analysed, auto: map<nat, nat>, placed: seq<Placement>, P: Parts, n: nat, a: nat)
    requires Wf(m) && PartsOk(m, auto, placed, P) && n < |P.order|
    requires m.g.nterminal <= a < m.g.nsymbol && LiveOn(P.rows[n], a) != []
    ensures GotoReadable(Assemble(m.g, P), n, a)
    ensures GotoCode(Assemble(m.g, P), n, a) == Code(P.N, LiveOn(P.rows[n], a)[0])
  {
    assert RowOk(m, auto, placed, P, n);
    FinalPositive(m, auto, P.order, P.N, P.order[n], P.rows[n]);
    GotoRead(P.N, P.t, P.mem, P.nAction, P.nact, m.g.nterminal, m.g.nsymbol, P.N.accAction + 1, placed, P.rows[n], P.ofs[n], a);
    hide Wf, NumbersOk, Layout, Packed, FinalOk, CodesPositive, LiveOn, Code, LeastOffset, TokenOffset, YyAction, DefaultCode;
  }

  lemma GotoRow(m: Analysed, auto: map<nat, nat>, placed: seq<Placement>, P: Parts, n: nat, a: nat)
    requires Wf(m) && PartsOk(m, auto, placed, P) && n < |P.order| && Awaits(MeaningOf(m, P.order), P.order[n], a)
    ensures GotoSound(MeaningOf(m, P.order), Assemble(m.g, P), n, a)
  {
    assert RowOk(m, auto, placed, P, n);
    GotoFinal(m, auto, P.order, P.N, P.order[n], P.rows[n], a);
    GotoEntry(m, auto, placed, P, n, a);
    hide Wf, Layout, Packed, FinalOk, GotoCode, GotoReadable, Edge, Forced, LiveOn, Code;
  }

  lemma PartsSound(m: Analysed, auto: map<nat, nat>, placed: seq<Placement>, P: Parts)
    requires Wf(m) && PartsOk(m, auto, placed, P)
    ensures TablesSound(MeaningOf(m, P.order), Assemble(m.g, P))
  {
    var T, mean := Assemble(m.g, P), MeaningOf(m, P.order);
    forall n: nat, t: nat | n < T.nxstate && t < T.nterminal ensures TokenSound(mean, T, n, t) {
      TokenRow(m, auto, placed, P, n, t);
    }
    forall n: nat, a: nat | n < T.nxstate && Awaits(mean, mean.order[n], a) ensures GotoSound(mean, T, n, a) {
      GotoRow(m, auto, placed, P, n, a);
    }
    assert RowOk(m, auto, placed, P, 0);
    StartFinal(m, auto, P.N, P.rows[0]);
    assert m.g.nterminal <= m.g.start < m.g.nsymbol;
    GotoEntry(m, auto, placed, P, 0, m.g.start);
    hide Wf, Layout, Packed, FinalOk, TokenSound, GotoSound, GotoReadable, GotoCode, LiveOn, Code, LeastOffset, YyAction, YyLookahead;
    forall n | 0 <= n < |P.order| ensures P.order[n] < |m.states| { assert RowOk(m, auto, placed, P, n); }
  }

  // ---- The tables say what the finished lists say ----

  /** The code of a live terminal or default action says what the action says. */
  lemma CodeMeans(m: Analysed, auto: map<nat, nat>, P: Parts, k: nat, a: Action)
    requires Wf(m) && |P.ofs| == |P.rows| == |P.order| && NumbersOk(m, auto, P.order, P.N) && Final(m, auto, k, a)
    requires a.sp < m.g.nterminal || a.sp == m.g.nsymbol
    ensures TokenMeans(Assemble(m.g, P), P.order, Some(MoveOf(a)), Code(P.N, a))
  {
    hide LeastOffset, GotoOffset, TokenOffset, DefaultCode, YyAction, YyLookahead;
    if a.kind == SHIFT {
      EdgeTarget(m, k, a.sp, a.arg);
      hide Wf, Edge, Forced, Ends;
      assert a.arg in P.N.num;
    } else {
      assert m.g.nterminal <= m.g.start < m.g.nsymbol;
      hide Wf, Edge;
    }
  }

  lemma TokenMirrors(m: Analysed, auto: map<nat, nat>, placed: seq<Placement>, P: Parts, finals: seq<seq<Action>>, n: nat, t: nat)
    requires Wf(m) && PartsOk(m, auto, placed, P) && n < |P.order| && t < m.g.nterminal && P.order[n] < |finals| && P.rows[n] == finals[P.order[n]]
    ensures TokenMirrored(MeaningOf(m, P.order), Assemble(m.g, P), finals, n, t)
  {
    TokenEntry(m, auto, placed, P, n, t);
    assert RowOk(m, auto, placed, P, n);
    var k, aps, d := P.order[n], P.rows[n], m.g.nsymbol;
    LiveOnMembers(aps, t);
    LiveOnMembers(aps, d);
    hide Wf, NumbersOk, Layout, Packed, Final, TokenMeans, Code, ShiftReadable, TokenCode;
    if LiveOn(aps, t) != [] {
      assert LiveOn(aps, t)[0] in LiveOn(aps, t);
      CodeMeans(m, auto, P, k, LiveOn(aps, t)[0]);
    } else if LiveOn(aps, d) != [] {
      assert LiveOn(aps, d)[0] in LiveOn(aps, d);
      CodeMeans(m, auto, P, k, LiveOn(aps, d)[0]);
    } else {
      ErrorMeans(m, P);
    }
  }

  lemma ErrorMeans(m: Analysed, P: Parts)
    requires |P.ofs| == |P.rows| == |P.order|
    ensures TokenMeans(Assemble(m.g, P), P.order, None, P.N.errAction)
  {
  }

  lemma GotoCodeMeans(m: Analysed, auto: map<nat, nat>, P: Parts, k: nat, a: Action)
    requires Wf(m) && |P.ofs| == |P.rows| == |P.order| && NumbersOk(m, auto, P.order, P.N) && Final(m, auto, k, a)
    requires m.g.nterminal <= a.sp < m.g.nsymbol
    ensures GotoMeans(Assemble(m.g, P), P.order, MoveOf(a), Code(P.N, a)) && (a.kind == ACCEPT ==> a.sp == m.g.start)
  {
    hide LeastOffset, GotoOffset, TokenOffset, DefaultCode, YyAction, YyLookahead;
    if a.kind == SHIFT {
      EdgeTarget(m, k, a.sp, a.arg);
      hide Wf, Edge, Forced, Ends;
      assert a.arg in P.N.num;
    } else {
      hide Wf, Edge;
    }
  }

  lemma GotoMirrors(m: Analysed, auto: map<nat, nat>, placed: seq<Placement>, P: Parts, finals: seq<seq<Action>>, n: nat, a: nat)
    requires Wf(m) && PartsOk(m, auto, placed, P) && n < |P.order| && m.g.nterminal <= a < m.g.nsymbol && P.order[n] < |finals| && P.rows[n] == finals[P.order[n]]
    ensures GotoMirrored(MeaningOf(m, P.order), Assemble(m.g, P), finals, n, a)
  {
    assert RowOk(m, auto, placed, P, n);
    GotoAwaited(m, auto, P, n, a);
    hide Wf, PartsOk, RowOk, Awaits, GotoMeans, GotoReadable, GotoCode, LiveOn;
    if LiveOn(P.rows[n], a) != [] { GotoSaid(m, auto, placed, P, n, a); }
  }

  lemma GotoAwaited(m: Analysed, auto: map<nat, nat>, P: Parts, n: nat, a: nat)
    requires Wf(m) && |P.ofs| == |P.rows| == |P.order| > n && P.order[0] == 0 && NumbersOk(m, auto, P.order, P.N)
    requires P.order[n] < |m.states| && FinalOk(m, auto, P.order[n], P.rows[n])
    ensures Awaits(MeaningOf(m, P.order), P.order[n], a) || (n == 0 && a == m.g.start) ==> LiveOn(P.rows[n], a) != []
  {
    hide Wf, FinalOk, NumbersOk, Code, LiveOn;
    if Awaits(MeaningOf(m, P.order), P.order[n], a) { GotoFinal(m, auto, P.order, P.N, P.order[n], P.rows[n], a); }
    if n == 0 { StartFinal(m, auto, P.N, P.rows[n]); }
  }

  lemma GotoSaid(m: Analysed, auto: map<nat, nat>, placed: seq<Placement>, P: Parts, n: nat, a: nat)
    requires Wf(m) && PartsOk(m, auto, placed, P) && n < |P.order| && m.g.nterminal <= a < m.g.nsymbol && LiveOn(P.rows[n], a) != []
    ensures var T, x := Assemble(m.g, P), LiveOn(P.rows[n], a)[0];
      GotoReadable(T, n, a) && GotoMeans(T, P.order, MoveOf(x), GotoCode(T, n, a)) && (x.kind == ACCEPT ==> a == m.g.start)
  {
    var aps := P.rows[n];
    assert RowOk(m, auto, placed, P, n);
    GotoEntry(m, auto, placed, P, n, a);
    LiveOnMembers(aps, a);
    assert LiveOn(aps, a)[0] in LiveOn(aps, a);
    hide Wf, NumbersOk, Layout, Packed, Final, Code, GotoMeans, GotoReadable, GotoCode, LiveOn, Assemble;
    GotoCodeMeans(m, auto, P, P.order[n], LiveOn(aps, a)[0]);
  }

  lemma PartsMirror(m: Analysed, auto: map<nat, nat>, placed: seq<Placement>, P: Parts, finals: seq<seq<Action>>)
    requires |P.ofs| == |P.rows| == |P.order| && Wf(m) && PartsOk(m, auto, placed, P)
    requires forall n :: 0 <= n < |P.order| ==> P.order[n] < |finals| && P.rows[n] == finals[P.order[n]]
    ensures Mirrors(MeaningOf(m, P.order), Assemble(m.g, P), finals)
  {
    hide Wf, PartsOk, TokenMirrored, GotoMirrored;
    var T, mean := Assemble(m.g, P), MeaningOf(m, P.order);
    forall n: nat, t: nat | n < T.nxstate && t < m.g.nterminal ensures TokenMirrored(mean, T, finals, n, t) {
      TokenMirrors(m, auto, placed, P, finals, n, t);
    }
    forall n: nat, a: nat | n < T.nxstate && m.g.nterminal <= a < m.g.nsymbol ensures GotoMirrored(mean, T, finals, n, a) {
      GotoMirrors(m, auto, placed, P, finals, n, a);
    }
  }

  // ---- The generator ----

  /** The lists that conflict resolution leaves. */
  ghost predicate ResolvedAll(m: Analysed, p: Precedences, lists: seq<seq<Action>>) {
    |lists| == |m.states| && forall k :: 0 <= k < |lists| ==> Resolved(m, k, lists[k]) && Elected(m, p, k, lists[k]) && Settled(m, p, k, lists[k])
  }

  /** The declarations choose between any two actions of any state. */
  ghost predicate AllDecidedIn(m: Analysed, p: Precedences) {
    TokensDistinct(m.g) && forall k :: 0 <= k < |m.states| ==> DecidedAt(m, p, k)
  }

  method FindActions(m: Analysed, p: Precedences) returns (lists: seq<seq<Action>>, nconflict: nat)
    requires Wf(m) && NoNonassoc(p)
    ensures ResolvedAll(m, p, lists)
    ensures p.prec == map[] && nconflict == 0 ==> ConflictFree(m)
    ensures AllDecidedIn(m, p) ==> nconflict == 0
  {
    hide Wf, Resolved, Elected, Settled, DecidedAt, ConflictFreeAt;
    lists, nconflict := [], 0;
    for k := 0 to |m.states|
      invariant |lists| == k && forall j :: 0 <= j < k ==> Resolved(m, j, lists[j]) && Elected(m, p, j, lists[j]) && Settled(m, p, j, lists[j])
      invariant p.prec == map[] && nconflict == 0 ==> forall j :: 0 <= j < k ==> ConflictFreeAt(m, j)
      invariant TokensDistinct(m.g) && (forall j :: 0 <= j < k ==> DecidedAt(m, p, j)) ==> nconflict == 0
    {
      var aps, n := FindStateActions(m, p, k);
      lists, nconflict := lists + [aps], nconflict + n;
    }
  }

  /** From resolved actions to tables, which are sound whatever `mem` holds behind the packed array
      and say what the compressed lists say. */
  method BuildTables(m: Analysed, p: Precedences, mem: Memory)
    returns (T: Tables, nconflict: nat, ghost meaning: Meaning, ghost lists: seq<seq<Action>>, ghost finals: seq<seq<Action>>)
    requires Completeness.WellAnalysed(m) && NoNonassoc(p)
    ensures meaning.g == m.g && Consistent(meaning) && TablesSound(meaning, T) && Mirrors(meaning, T, finals)
    ensures ResolvedAll(m, p, lists) && Machine.RulesOk(RulesOf(m.g)) && CompressionRuns.AcceptsAlike(m.g, lists, finals) && CompressionRuns.StepsKept(m.g, lists, finals)
    ensures CompressionRuns.Compression(m, lists, finals)
    ensures T.minReduce + T.nrule == |m.states| + 2 * |m.g.rules| + 3
    ensures p.prec == map[] && nconflict == 0 ==> Completeness.AcceptsSentences(m.g, lists)
    ensures AllDecidedIn(m, p) ==> nconflict == 0
  {
    var resolved, compressed, auto;
    resolved, nconflict := FindActions(m, p);
    auto, compressed := CompressionRuns.CompressTables(m, resolved);
    lists, finals := resolved, compressed;
    assert CompressionRuns.CompressionBy(m, lists, auto, finals);
    if p.prec == map[] && nconflict == 0 { Completeness.FreeIsComplete(m, lists); }
    hide CompressionRuns.AcceptsAlike, CompressionRuns.StepsKept, CompressionRuns.CompressionBy, Elected, Settled, AllDecidedIn, Completeness.AcceptsSentences, Resolved, FinalOk, TablesSound, Mirrors, ConflictFree, Machine.RulesOk;
    var order, num := ResortStates(compressed, auto, m.g.nterminal, m.g.nsymbol);
    T := LayOut(m, auto, compressed, order, num, mem);
    meaning := MeaningOf(m, order);
  }

  method LayOut(m: Analysed, ghost auto: map<nat, nat>, finals: seq<seq<Action>>, order: seq<nat>, num: map<nat, nat>, mem: Memory) returns (T: Tables)
    requires Wf(m) && |finals| == |m.states| && forall k :: 0 <= k < |finals| ==> FinalOk(m, auto, k, finals[k])
    requires 0 < |order| <= |finals| && order[0] == 0 && forall n :: 0 <= n < |order| ==> order[n] < |finals|
    requires forall k :: 0 <= k < |finals| && (k == 0 || k !in auto) ==> k in num
    requires forall k :: k in num ==> num[k] < |order| && order[num[k]] == k
    ensures TablesSound(MeaningOf(m, order), T) && Mirrors(MeaningOf(m, order), T, finals)
    ensures T.minReduce + T.nrule == |m.states| + 2 * |m.g.rules| + 3
  {
    var N := NumbersFor(m.g, |m.states|, num);
    assert m.g.nterminal < m.g.nsymbol;
    hide Wf, FinalOk, Layout, AllHeld, AllTokensExact, SafeSlots, Packed, TablesSound, Mirrors;
    var rows := seq(|order|, n requires 0 <= n < |order| => finals[order[n]]);
    forall n | 0 <= n < |rows| ensures Deterministic(rows[n]) { FinalDeterministic(m, auto, order[n], rows[n]); }
    hide Deterministic;
    var tab := new ActTab(m.g.nsymbol, m.g.nterminal);
    var ofs, _ := PackAll(tab, N, rows);
    var nact := ActionSize(tab, mem);
    var P := Parts(N, order, rows, ofs, tab.aAction[..], mem, tab.nAction, nact);
    T := Assemble(m.g, P);
    TabLayout(tab, mem, nact);
    forall n | 0 <= n < |order| ensures RowOk(m, auto, tab.placed, P, n) { }
    PartsSound(m, auto, tab.placed, P);
    PartsMirror(m, auto, tab.placed, P, finals);
  }

  function NumbersFor(g: Grammar, nstate: nat, num: map<nat, nat>): Numbers {
    Numbers(num, g.nterminal, nstate, nstate + |g.rules|, nstate + |g.rules| + 1, nstate + |g.rules| + 3)
  }

  lemma FinalDeterministic(m: Analysed, auto: map<nat, nat>, k: nat, aps: seq<Action>)
    requires FinalOk(m, auto, k, aps)
    ensures Deterministic(aps)
  {
  }

  lemma TabLayout(tab: ActTab, mem: Memory, nact: nat)
    requires tab.Valid() && tab.Tokens() && IsTrimmed(tab.aAction[..], mem, tab.nAction, nact) && tab.nterminal < tab.nsymbol
    ensures Layout(tab.aAction[..], mem, tab.nAction, nact, tab.nterminal, tab.nsymbol, tab.placed)
  {
    hide AllHeld, AllTokensExact;
  }

  /** FIRST sets, states, configurations, links and follow sets. */
  method Analyse(g: Grammar) returns (m: Analysed)
    requires ValidGrammar(g) && NoStartOnRhs(g)
    ensures m.g == g && Completeness.WellAnalysed(m) && Exact(g, m.an)
    ensures LookaheadPaths.ClassesFilled(g) ==> LookaheadPaths.FollowExact(m)
  {
    var an := FindFirstSets(g);
    var builder := new Builder(g, an);
    builder.FindStates();
    var states := builder.states;
    AutomatonOnce(g, an, states);
    hide ItemsOnce, IsAutomaton, ValidGrammar, NoStartOnRhs, Exact, LambdaClosed, FirstClosed;
    var cfgs := ListConfigs(states);
    var links := FindLinks(g, states, cfgs);
    var init := CollectSeeds(g, an, states, cfgs);
    var fws := FindFollowSets(links, init, g.nterminal);
    m := Analysed(g, an, states, cfgs, fws);
    forall c | 0 <= c < |cfgs| && IsStartRule(g, cfgs[c].item.rule) ensures fws[c] <= {0} {
      StartFollow(g, an, states, cfgs, links, init, fws, c);
    }
    FollowBounded(g.nterminal, links, init, fws);
    FollowsClosed(g, states, cfgs, links, init, fws);
    if LookaheadPaths.ClassesFilled(g) { LookaheadPaths.FollowSetsExact(m, links, init); }
  }

  lemma FollowBounded(bound: nat, links: Links, init: Sets, fws: Sets)
    requires LeastFollow(links, init, fws) && Bounded(bound, init)
    ensures Bounded(bound, fws)
  {
    forall c, t | 0 <= c < |fws| && t in fws[c] ensures t < bound {
      assert Inherits(links, init, c, t);
    }
  }

  /** Lemon from a grammar to the tables of its parser: sound for every valid grammar, and saying
      what compression made of the resolved action lists. */
  method Generate(g: Grammar, p: Precedences, mem: Memory)
    returns (T: Tables, nconflict: nat, ghost meaning: Meaning, ghost m: Analysed, ghost lists: seq<seq<Action>>, ghost finals: seq<seq<Action>>)
    requires ValidGrammar(g) && NoStartOnRhs(g) && NoNonassoc(p)
    ensures meaning.g == g && Consistent(meaning) && TablesSound(meaning, T) && Mirrors(meaning, T, finals)
    ensures Ranges(T) && T.nterminal == g.nterminal && T.nrule == |g.rules|
    ensures m.g == g && Completeness.WellAnalysed(m) && ResolvedAll(m, p, lists)
    ensures LookaheadPaths.ClassesFilled(g) ==> LookaheadPaths.FollowExact(m)
    ensures Machine.RulesOk(RulesOf(g)) && CompressionRuns.AcceptsAlike(g, lists, finals) && CompressionRuns.StepsKept(g, lists, finals)
    ensures CompressionRuns.Compression(m, lists, finals)
    ensures T.minReduce + T.nrule == |m.states| + 2 * |g.rules| + 3
    ensures p.prec == map[] && nconflict == 0 ==> Completeness.AcceptsSentences(g, lists)
    ensures AllDecidedIn(m, p) ==> nconflict == 0
  {
    hide *;
    var analysed := Analyse(g);
    m := analysed;
    T, nconflict, meaning, lists, finals := BuildTables(analysed, p, mem);
    SoundRanges(meaning, T);
  }

  // ---- The generated parser at work ----

  /** Enough turns for every token: no nonterminal derives itself, and the bound is met. */
  ghost predicate Enough(g: Grammar, codes: nat, limit: nat, fuel: nat) { !Cyclic(g) && fuel >= TurnBound(codes, g.nsymbol, limit) }

  ghost predicate EnoughTurns(m: Analysed, limit: nat, fuel: nat) { Enough(m.g, |m.states| + 2 * |m.g.rules| + 3, limit, fuel) }

  lemma EnoughEnds(m: Meaning, T: Tables, limit: nat, stack: seq<Entry>, path: seq<nat>, consumed: seq<nat>, c: Machine.Conf, fuel: nat)
    requires Consistent(m) && TablesSound(m, T) && InStep(m, T, limit, stack, path, consumed, c) && c.input != []
    ensures stack != [] && (Enough(m.g, T.minReduce + T.nrule, limit, fuel) ==> Fed(T, limit, stack, c.input[0], fuel).0 != OutOfFuel)
  {
    hide Consistent, TablesSound, Running, SameTop, Fed, Cyclic, TurnBound;
    BottomState(m, T, stack, path, consumed);
    if Enough(m.g, T.minReduce + T.nrule, limit, fuel) { AcyclicEnds(m, T, limit, stack, path, consumed, c.input[0], fuel); }
  }

  /** Feed the tokens and then the end marker.  The driver accepts sentences only; it accepts where
      the machine that reads the finished lists does, and only there. */
  method Feed(T: Tables, tokens: seq<nat>, limit: nat, fuel: nat, ghost meaning: Meaning, ghost finals: seq<seq<Action>>) returns (accepted: bool)
    requires Consistent(meaning) && TablesSound(meaning, T) && Mirrors(meaning, T, finals) && Machine.RulesOk(RulesOf(meaning.g)) && limit > 0
    requires 0 < meaning.g.nterminal && forall i :: 0 <= i < |tokens| ==> 0 < tokens[i] < meaning.g.nterminal
    ensures accepted ==> Sentence(meaning.g, tokens) && exists n: nat :: Accepts(meaning.g, finals, tokens, n, limit)
    ensures forall n: nat :: limit > 1 && Accepts(meaning.g, finals, tokens, n, limit) && (n <= fuel || Enough(meaning.g, T.minReduce + T.nrule, limit, fuel)) ==> accepted
  {
    hide Consistent, TablesSound, Mirrors, Sentence, Running, RulesOf, Midway, Enough, SameStack, FedMeans, Accepts, InStep, Fed;
    var parser := new Parser(T, limit, meaning);
    SoundRanges(meaning, T);
    ghost var n: nat, k: nat, c': Machine.Conf := 0, 0, Start([]);
    ghost var c := FeedStart(meaning, T, finals, limit, tokens);
    for i := 0 to |tokens|
      invariant parser.Valid() && parser.Counts() && parser.consumed == tokens[..i] && parser.T == T && parser.m == meaning && parser.limit == limit
      invariant Midway(meaning.g, finals, limit, tokens, i, n, c) && SameStack(T, meaning.order, c.stack, parser.stack)
    {
      FeedInStep(meaning, T, finals, limit, tokens, i, n, c, parser.stack, parser.path, parser.consumed);
      k, c' := FedIsRun(meaning, T, finals, limit, parser.stack, parser.path, parser.consumed, c, fuel);
      EnoughEnds(meaning, T, limit, parser.stack, parser.path, parser.consumed, c, fuel);
      ghost var fed := Fed(T, limit, parser.stack, tokens[i], fuel);
      var o, _ := parser.Parse(tokens[i], fuel);
      if o != Shifted {
        if limit > 1 { FeedFails(meaning, T, finals, limit, tokens, i, n, c, fuel, fed, k, c'); }
        return false;
      }
      FeedShifts(meaning, T, finals, limit, tokens, i, n, c, fuel, fed, k, c');
      n, c := n + k, c';
      assert tokens[..i + 1] == tokens[..i] + [tokens[i]];
    }
    assert tokens[..|tokens|] == tokens;
    FeedInStep(meaning, T, finals, limit, tokens, |tokens|, n, c, parser.stack, parser.path, parser.consumed);
    k, c' := FedIsRun(meaning, T, finals, limit, parser.stack, parser.path, parser.consumed, c, fuel);
    EnoughEnds(meaning, T, limit, parser.stack, parser.path, parser.consumed, c, fuel);
    ghost var fed := Fed(T, limit, parser.stack, 0, fuel);
    var o, _ := parser.Parse(0, fuel);
    accepted := o == Accepted;
    if accepted {
      FeedAccepts(meaning, T, finals, limit, tokens, |tokens|, n, c, fuel, fed, k, c');
    } else if limit > 1 {
      FeedFails(meaning, T, finals, limit, tokens, |tokens|, n, c, fuel, fed, k, c');
    }
  }

  /** A generated parser fed with tokens and then the end marker.  It accepts only sentences; it
      accepts just what parsing from the resolved action lists accepts; and where no conflict was
      met and no precedence declared, it accepts every sentence that fits the stack and the turns. */
  method Recognize(g: Grammar, p: Precedences, mem: Memory, tokens: seq<nat>, limit: nat, fuel: nat)
    returns (accepted: bool, nconflict: nat, ghost m: Analysed, ghost lists: seq<seq<Action>>)
    requires ValidGrammar(g) && NoStartOnRhs(g) && NoNonassoc(p) && limit > 0
    requires forall i :: 0 <= i < |tokens| ==> 0 < tokens[i] < g.nterminal
    ensures accepted ==> Sentence(g, tokens)
    ensures p.prec == map[] && nconflict == 0 ==> forall tree :: Trees.ParseOf(g, tree, tokens) && limit > 1 && Trees.Size(tree) <= limit && (Trees.Size(tree) <= fuel || EnoughTurns(m, limit, fuel)) ==> accepted
    ensures m.g == g && Completeness.WellAnalysed(m) && ResolvedAll(m, p, lists) && Machine.RulesOk(RulesOf(g))
    ensures accepted ==> exists n: nat :: Accepts(g, lists, tokens, n, limit)
    ensures forall n: nat :: limit > 1 && Accepts(g, lists, tokens, n, limit) && (n <= fuel || EnoughTurns(m, limit, fuel)) ==> accepted
  {
    hide Consistent, TablesSound, Mirrors, Sentence, RulesOf, NoStartOnRhs, Accepts, Enough, CompressionRuns.StepsKept, ResolvedAll, Completeness.WellAnalysed, Completeness.AcceptsSentences, CompressionRuns.AcceptsAlike, Trees.ParseOf, Trees.Size;
    var T;
    ghost var meaning, finals;
    T, nconflict, meaning, m, lists, finals := Generate(g, p, mem);
    accepted := Feed(T, tokens, limit, fuel, meaning, finals);
    forall n: nat ensures Accepts(g, lists, tokens, n, limit) <==> Accepts(g, finals, tokens, n, limit) {
      AlikeAccepts(g, lists, finals, tokens, n, limit);
    }
    if p.prec == map[] && nconflict == 0 {
      forall tree | Trees.ParseOf(g, tree, tokens) && Trees.Size(tree) <= limit ensures Accepts(g, lists, tokens, Trees.Size(tree), limit) {
        TreeAccepted(g, lists, tokens, tree, limit);
      }
    }
  }

  lemma AlikeAccepts(g: Grammar, lists: seq<seq<Action>>, finals: seq<seq<Action>>, tokens: seq<nat>, n: nat, limit: nat)
    requires Machine.RulesOk(RulesOf(g)) && CompressionRuns.AcceptsAlike(g, lists, finals) && 0 < g.nterminal && forall i :: 0 <= i < |tokens| ==> tokens[i] < g.nterminal
    ensures Accepts(g, lists, tokens, n, limit) <==> Accepts(g, finals, tokens, n, limit)
  {
    hide Machine.AcceptsWithin;
    assert CompressionRuns.AlikeOn(g, lists, finals, tokens + [0], n, limit);
  }

  lemma TreeAccepted(g: Grammar, lists: seq<seq<Action>>, tokens: seq<nat>, tree: Trees.Tree, limit: nat)
    requires Machine.RulesOk(RulesOf(g)) && Completeness.AcceptsSentences(g, lists) && Trees.ParseOf(g, tree, tokens) && Trees.Size(tree) <= limit
    ensures Accepts(g, lists, tokens, Trees.Size(tree), limit)
  {
    hide Trees.ParseOf, Machine.AcceptsWithin;
    assert Completeness.AcceptsTree(g, lists, tree, tokens, limit);
  }
}
