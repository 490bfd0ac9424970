/** The generated parser: the table-driven shift/reduce loop of `lempar.c`. */
module Driver {
  import opened Grammars
  import opened FirstSets
  import opened Closures
  import opened Automata
  import opened StackInvariant
  import opened Wrappers

  /** The numeric tables a generated parser is compiled with.  An action number below `nxstate`
      is a state to go to; then come the shift-reduces, error, accept, no-action and the reduces. */
  datatype Tables = Tables(
    nxstate: nat, nrule: nat, nterminal: nat,
    minShiftReduce: nat, errAction: nat, accAction: nat, noAction: nat, minReduce: nat,
    yyAction: seq<int>, yyLookahead: seq<int>, yyShiftOfst: seq<int>, yyReduceOfst: seq<int>, yyDefault: seq<int>,
    ruleLhs: seq<nat>, ruleNRhs: seq<nat>)

  predicate Ranges(T: Tables) {
    && T.nxstate <= T.minShiftReduce && T.errAction == T.minShiftReduce + T.nrule
    && T.accAction == T.errAction + 1 && T.noAction == T.accAction + 1 && T.minReduce == T.noAction + 1
    && |T.ruleLhs| == |T.ruleNRhs| == T.nrule
  }

  /** The reads of `yy_find_shift_action` are in bounds. */
  predicate ShiftReadable(T: Tables, la: nat, n: nat) {
    && n < |T.yyShiftOfst| && n < |T.yyDefault|
    && 0 <= T.yyShiftOfst[n] + la < |T.yyLookahead|
    && (T.yyLookahead[T.yyShiftOfst[n] + la] == la ==> T.yyShiftOfst[n] + la < |T.yyAction|)
  }

  function TokenCode(T: Tables, la: nat, n: nat): int
    requires ShiftReadable(T, la, n)
  {
    var i := T.yyShiftOfst[n] + la;
    if T.yyLookahead[i] != la then T.yyDefault[n] else T.yyAction[i]
  }

  /** The reads and assertions of `yy_find_reduce_action`. */
  predicate GotoReadable(T: Tables, n: nat, a: nat) {
    && n < |T.yyReduceOfst|
    && 0 <= T.yyReduceOfst[n] + a < |T.yyAction| && T.yyReduceOfst[n] + a < |T.yyLookahead|
    && T.yyLookahead[T.yyReduceOfst[n] + a] == a
  }

  function GotoCode(T: Tables, n: nat, a: nat): int
    requires GotoReadable(T, n, a)
  {
    T.yyAction[T.yyReduceOfst[n] + a]
  }

  // ---- When tables are sound for an automaton ----

  /** What the tables stand for: the grammar, its automaton, and the automaton state behind each
      state number. */
  datatype Meaning = Meaning(g: Grammar, an: Analysis, states: seq<State>, order: seq<nat>)

  predicate IsStartRule(g: Grammar, r: nat) { r < |g.rules| && g.rules[r].lhs == g.start }

  /** The start symbol is on no right-hand side, which `FindStates` reports as an error otherwise. */
  predicate NoStartOnRhs(g: Grammar) {
    forall r, i :: 0 <= r < |g.rules| && 0 <= i < |g.rules[r].rhs| ==> g.rules[r].rhs[i] != Nonterminal(g.start)
  }

  /** Rule `r` is complete in state `s`. */
  predicate Ends(g: Grammar, states: seq<State>, s: nat, r: nat) {
    s < |states| && r < |g.rules| && Item(r, |g.rules[r].rhs|) in states[s].closed.items
  }

  /** A reduction that may be carried out without looking at the next token. */
  predicate Forced(g: Grammar, states: seq<State>, s: nat, r: nat) {
    Ends(g, states, s, r) && g.rules[r].rhs != [] && !IsStartRule(g, r)
  }

  ghost predicate ShiftsTo(m: Meaning, T: Tables, s: nat, major: nat, c: int) {
    0 <= c < T.nxstate && c < |m.order| && Edge(m.g, m.states, s, major, m.order[c])
  }

  ghost predicate ShiftsAndReduces(m: Meaning, s: nat, major: nat, r: int) {
    0 <= r && exists to :: Edge(m.g, m.states, s, major, to) && Forced(m.g, m.states, to, r)
  }

  /** A terminal entry is an error, a shift along the automaton, a shift-reduce by a rule that is
      forced in the state shifted to, or a reduce by a rule complete in this state; start rules are
      reduced on the end marker only. */
  ghost predicate TokenSound(m: Meaning, T: Tables, n: nat, t: nat)
    requires n < |m.order|
  {
    && ShiftReadable(T, t, n)
    && var c := TokenCode(T, t, n);
       || c == T.errAction
       || ShiftsTo(m, T, m.order[n], t, c)
       || (T.minShiftReduce <= c < T.errAction && ShiftsAndReduces(m, m.order[n], t, c - T.minShiftReduce))
       || (T.minReduce <= c && Ends(m.g, m.states, m.order[n], c - T.minReduce) && (IsStartRule(m.g, c - T.minReduce) ==> t == 0))
  }

  predicate Awaits(m: Meaning, s: nat, a: nat) {
    s < |m.states| && exists y :: y in m.states[s].closed.items && Before(m.g, y, Nonterminal(a))
  }

  ghost predicate GotoSound(m: Meaning, T: Tables, n: nat, a: nat)
    requires n < |m.order|
  {
    && GotoReadable(T, n, a)
    && var c := GotoCode(T, n, a);
       ShiftsTo(m, T, m.order[n], a, c) || (T.minReduce <= c && ShiftsAndReduces(m, m.order[n], a, c - T.minReduce))
  }

  ghost predicate Consistent(m: Meaning) {
    && ValidGrammar(m.g) && NoStartOnRhs(m.g) && Sized(m.g, m.an) && IsAutomaton(m.g, m.an, m.states)
  }

  ghost predicate TablesSound(m: Meaning, T: Tables) {
    && Ranges(T) && T.nterminal == m.g.nterminal && T.nrule == |m.g.rules|
    && (forall r :: 0 <= r < T.nrule ==> T.ruleLhs[r] == m.g.rules[r].lhs && T.ruleNRhs[r] == |m.g.rules[r].rhs|)
    && |m.order| == T.nxstate > 0 && m.order[0] == 0 && (forall n :: 0 <= n < |m.order| ==> m.order[n] < |m.states|)
    && (forall n: nat, t: nat :: n < T.nxstate && t < T.nterminal ==> TokenSound(m, T, n, t))
    && (forall n: nat, a: nat :: n < T.nxstate && Awaits(m, m.order[n], a) ==> GotoSound(m, T, n, a))
    && GotoReadable(T, 0, m.g.start) && GotoCode(T, 0, m.g.start) == T.accAction
  }

  // ---- Configurations of the parser ----

  datatype Entry = Entry(stateno: int, major: nat)

  const BOTTOM := Entry(0, 0)

  function Majors(stack: seq<Entry>): (r: seq<nat>)
    requires stack != []
    ensures |r| == |stack| - 1
  {
    seq(|stack| - 1, i requires 0 <= i < |stack| - 1 => stack[i + 1].major)
  }

  /** The top entry is a state, or a reduction that is already decided. */
  ghost predicate TopOk(m: Meaning, T: Tables, e: Entry, s: nat) {
    || (0 <= e.stateno < T.nxstate && e.stateno < |m.order| && m.order[e.stateno] == s)
    || (e.stateno >= T.minReduce && Forced(m.g, m.states, s, e.stateno - T.minReduce))
  }

  /** A running parser: the stack follows a path of the automaton, and its symbols derive what
      has been consumed. */
  ghost predicate Running(m: Meaning, T: Tables, stack: seq<Entry>, path: seq<nat>, consumed: seq<nat>) {
    && stack != [] && stack[0] == BOTTOM && IsPath(m.g, m.states, path, Majors(stack))
    && (forall i :: 0 <= i < |stack| - 1 ==> 0 <= stack[i].stateno < T.nxstate && stack[i].stateno < |m.order| && m.order[stack[i].stateno] == path[i])
    && TopOk(m, T, stack[|stack| - 1], path[|stack| - 1])
    && Derives(m.g, SymbolsOf(m.g, Majors(stack)), Word(consumed))
  }

  /** The start symbol has been reduced at the bottom of the stack. */
  ghost predicate Finished(m: Meaning, T: Tables, stack: seq<Entry>, consumed: seq<nat>) {
    stack == [BOTTOM, Entry(T.accAction, m.g.start)] && Sentence(m.g, consumed)
  }

  lemma StartRuns(m: Meaning, T: Tables)
    requires TablesSound(m, T)
    ensures Running(m, T, [BOTTOM], [0], [])
  {
    assert SymbolsOf(m.g, []) == Word([]);
    DerivesRefl(m.g, Word([]));
    assert Majors([BOTTOM]) == [];
  }

  lemma MajorsPush(stack: seq<Entry>, e: Entry)
    requires stack != []
    ensures Majors(stack + [e]) == Majors(stack) + [e.major]
  {
  }

  /** Pushing along an edge of the automaton. */
  lemma PushRuns(m: Meaning, T: Tables, stack: seq<Entry>, path: seq<nat>, consumed: seq<nat>, e: Entry, to: nat, consumed': seq<nat>)
    requires Running(m, T, stack, path, consumed)
    requires 0 <= stack[|stack| - 1].stateno < T.nxstate && stack[|stack| - 1].stateno < |m.order|
    requires m.order[stack[|stack| - 1].stateno] == path[|stack| - 1]
    requires Edge(m.g, m.states, path[|stack| - 1], e.major, to) && TopOk(m, T, e, to)
    requires Derives(m.g, SymbolsOf(m.g, Majors(stack) + [e.major]), Word(consumed'))
    ensures Running(m, T, stack + [e], path + [to], consumed')
  {
    hide TopOk, Edge, Derives;
    MajorsPush(stack, e);
    LongerPath(m.g, m.states, path, Majors(stack), e.major, to);
  }

  /** A token is shifted, by a shift or a shift-reduce entry. */
  lemma ShiftRuns(m: Meaning, T: Tables, stack: seq<Entry>, path: seq<nat>, consumed: seq<nat>, t: nat, c: int)
    returns (to: nat)
    requires Ranges(T) && Running(m, T, stack, path, consumed) && t < m.g.nterminal
    requires var n := stack[|stack| - 1].stateno;
      && 0 <= n < T.nxstate && n < |m.order| && m.order[n] == path[|stack| - 1]
      && (ShiftsTo(m, T, m.order[n], t, c)
          || (T.minShiftReduce <= c < T.errAction && ShiftsAndReduces(m, m.order[n], t, c - T.minShiftReduce)))
    ensures Running(m, T, stack + [Entry(ShiftedState(T, c), t)], path + [to], consumed + [t])
  {
    ShiftDerives(m.g, Majors(stack), consumed, t);
    hide Derives, Edge, Forced;
    if 0 <= c < T.nxstate {
      to := m.order[c];
    } else {
      to :| Edge(m.g, m.states, path[|stack| - 1], t, to) && Forced(m.g, m.states, to, c - T.minShiftReduce);
    }
    PushRuns(m, T, stack, path, consumed, Entry(ShiftedState(T, c), t), to, consumed + [t]);
  }

  /** The state number stored by `yy_shift`: a shift-reduce is remembered as its reduce. */
  function ShiftedState(T: Tables, c: int): int {
    if c > T.nxstate - 1 then c + T.minReduce - T.minShiftReduce else c
  }

  /** Popping entries leaves a running parser whose top is a state. */
  lemma PopPath(m: Meaning, T: Tables, stack: seq<Entry>, path: seq<nat>, consumed: seq<nat>, k: nat)
    requires Running(m, T, stack, path, consumed) && k < |stack|
    ensures IsPath(m.g, m.states, path[..|stack| - k], Majors(stack[..|stack| - k]))
    ensures Majors(stack[..|stack| - k]) == Majors(stack)[..|stack| - k - 1]
  {
    assert Majors(stack[..|stack| - k]) == Majors(stack)[..|stack| - k - 1];
    PrefixPath(m.g, m.states, path, Majors(stack), |stack| - k - 1);
  }

  /** Where a reduction by `r` lands: the right-hand side is on the stack, and the uncovered state
      either awaits the left-hand side, or is the bottom and the parse is complete. */
  lemma ReduceLands(m: Meaning, T: Tables, stack: seq<Entry>, path: seq<nat>, consumed: seq<nat>, r: nat)
    requires Consistent(m) && Running(m, T, stack, path, consumed) && Ends(m.g, m.states, path[|stack| - 1], r)
    ensures |m.g.rules[r].rhs| < |stack| && OnTop(m.g, Majors(stack), Item(r, |m.g.rules[r].rhs|))
    ensures IsStartRule(m.g, r) ==> |m.g.rules[r].rhs| == |stack| - 1
    ensures !IsStartRule(m.g, r) ==> Awaits(m, path[|stack| - 1 - |m.g.rules[r].rhs|], m.g.rules[r].lhs)
  {
    hide IsAutomaton, ValidGrammar, Derives, Edge, TopOk, Covers, Word;
    var x, top := Item(r, |m.g.rules[r].rhs|), |stack| - 1;
    assert |path| == |stack|;
    RuleOnStack(m.g, m.an, m.states, path, Majors(stack), x);
    var j := top - x.dot;
    UndottedItem(m.g, m.an, m.states, path[j], Item(r, 0));
    PathInRange(m.g, m.an, m.states, path, Majors(stack), j);
    if IsStartRule(m.g, r) {
      hide Before;
      NeverAwaited(m, path[j]);
    }
  }

  lemma NeverAwaited(m: Meaning, s: nat)
    requires NoStartOnRhs(m.g)
    ensures !Awaits(m, s, m.g.start)
  {
  }

  /** The stack after popping rule `r` and going to where its left-hand side leads. */
  ghost predicate Reduced(m: Meaning, T: Tables, stack: seq<Entry>, path: seq<nat>, consumed: seq<nat>, r: nat) {
    && r < |m.g.rules| && |m.g.rules[r].rhs| < |stack|
    && var below := stack[..|stack| - |m.g.rules[r].rhs|];
       var n := below[|below| - 1].stateno;
       && 0 <= n < T.nxstate && GotoReadable(T, n, m.g.rules[r].lhs)
       && var c := GotoCode(T, n, m.g.rules[r].lhs);
          var stack' := below + [Entry(c, m.g.rules[r].lhs)];
          c != T.errAction && if IsStartRule(m.g, r) then Finished(m, T, stack', consumed) else Running(m, T, stack', path, consumed)
  }

  /** After a reduction the parser runs on, or is finished. */
  lemma ReduceRuns(m: Meaning, T: Tables, stack: seq<Entry>, path: seq<nat>, consumed: seq<nat>, r: nat)
    returns (path': seq<nat>)
    requires Consistent(m) && TablesSound(m, T) && Running(m, T, stack, path, consumed)
    requires Ends(m.g, m.states, path[|stack| - 1], r)
    requires m.g.rules[r].rhs == [] ==> 0 <= stack[|stack| - 1].stateno < T.nxstate && stack[|stack| - 1].stateno < |m.order| && m.order[stack[|stack| - 1].stateno] == path[|stack| - 1]
    ensures Reduced(m, T, stack, path', consumed, r)
  {
    hide IsAutomaton, ValidGrammar, NoStartOnRhs, Derives, Edge, Forced, TokenSound, GotoSound, OnTop, Awaits, IsPath, Word, Finished;
    ReduceLands(m, T, stack, path, consumed, r);
    var rule := m.g.rules[r];
    var len := |stack| - |rule.rhs|;
    ReduceDerives(m.g, Majors(stack), r, Word(consumed));
    PopPath(m, T, stack, path, consumed, |rule.rhs|);
    assert stack[..len][len - 1] == stack[len - 1] && 0 <= stack[len - 1].stateno < T.nxstate;
    if IsStartRule(m.g, r) {
      path' := path;
      StartReduced(m, T, stack, consumed, r);
    } else {
      path' := LandOnState(m, T, stack, path, consumed, r, len);
    }
  }

  lemma StartReduced(m: Meaning, T: Tables, stack: seq<Entry>, consumed: seq<nat>, r: nat)
    requires TablesSound(m, T) && ValidGrammar(m.g) && IsStartRule(m.g, r) && |m.g.rules[r].rhs| == |stack| - 1 && stack[0] == BOTTOM
    requires Derives(m.g, SymbolsOf(m.g, Majors(stack)[..0] + [m.g.start]), Word(consumed))
    ensures Finished(m, T, stack[..1] + [Entry(GotoCode(T, 0, m.g.start), m.g.start)], consumed)
  {
    assert SymbolsOf(m.g, Majors(stack)[..0] + [m.g.start]) == [Nonterminal(m.g.start)];
    assert stack[..1] == [BOTTOM];
  }

  lemma LandOnState(m: Meaning, T: Tables, stack: seq<Entry>, path: seq<nat>, consumed: seq<nat>, r: nat, len: nat)
    returns (path': seq<nat>)
    requires TablesSound(m, T) && Running(m, T, stack, path, consumed) && r < |m.g.rules|
    requires 0 < len <= |stack| && 0 <= stack[len - 1].stateno < T.nxstate && m.order[stack[len - 1].stateno] == path[len - 1]
    requires IsPath(m.g, m.states, path[..len], Majors(stack[..len])) && Majors(stack[..len]) == Majors(stack)[..len - 1]
    requires Awaits(m, path[len - 1], m.g.rules[r].lhs)
    requires Derives(m.g, SymbolsOf(m.g, Majors(stack)[..len - 1] + [m.g.rules[r].lhs]), Word(consumed))
    ensures GotoReadable(T, stack[len - 1].stateno, m.g.rules[r].lhs)
    ensures var c := GotoCode(T, stack[len - 1].stateno, m.g.rules[r].lhs);
      c != T.errAction && Running(m, T, stack[..len] + [Entry(c, m.g.rules[r].lhs)], path', consumed)
  {
    hide Derives, Edge, Forced, Awaits, Ends;
    var n, a := stack[len - 1].stateno, m.g.rules[r].lhs;
    assert GotoSound(m, T, n, a);
    var c := GotoCode(T, n, a);
    var to: nat;
    if ShiftsTo(m, T, m.order[n], a, c) {
      to := m.order[c];
    } else {
      to :| Edge(m.g, m.states, m.order[n], a, to) && Forced(m.g, m.states, to, c - T.minReduce);
    }
    path' := path[..len] + [to];
    LandPush(m, T, stack[..len], path[..len], consumed, Entry(c, a), to);
  }

  lemma LandPush(m: Meaning, T: Tables, below: seq<Entry>, path: seq<nat>, consumed: seq<nat>, e: Entry, to: nat)
    requires below != [] && below[0] == BOTTOM && IsPath(m.g, m.states, path, Majors(below))
    requires forall i :: 0 <= i < |below| ==> 0 <= below[i].stateno < T.nxstate && below[i].stateno < |m.order| && m.order[below[i].stateno] == path[i]
    requires Edge(m.g, m.states, path[|below| - 1], e.major, to) && TopOk(m, T, e, to)
    requires Derives(m.g, SymbolsOf(m.g, Majors(below) + [e.major]), Word(consumed))
    ensures Running(m, T, below + [e], path + [to], consumed)
  {
    hide Derives, Edge, TopOk;
    MajorsPush(below, e);
    LongerPath(m.g, m.states, path, Majors(below), e.major, to);
  }

  // ---- Reading the top of the stack ----

  lemma StateBehindTop(m: Meaning, T: Tables, stack: seq<Entry>, path: seq<nat>, consumed: seq<nat>)
    requires Ranges(T) && Running(m, T, stack, path, consumed) && stack[|stack| - 1].stateno < T.nxstate
    ensures 0 <= stack[|stack| - 1].stateno < |m.order| && m.order[stack[|stack| - 1].stateno] == path[|stack| - 1]
  {
    hide Derives, IsPath, Forced;
  }

  lemma DecidedTop(m: Meaning, T: Tables, stack: seq<Entry>, path: seq<nat>, consumed: seq<nat>)
    requires Running(m, T, stack, path, consumed) && stack[|stack| - 1].stateno >= T.nxstate
    ensures stack[|stack| - 1].stateno >= T.minReduce
    ensures Forced(m.g, m.states, path[|stack| - 1], stack[|stack| - 1].stateno - T.minReduce)
  {
    hide Derives, IsPath, Forced;
  }

  lemma EntrySound(m: Meaning, T: Tables, stack: seq<Entry>, path: seq<nat>, consumed: seq<nat>, t: nat)
    requires TablesSound(m, T) && Running(m, T, stack, path, consumed) && t < T.nterminal
    requires 0 <= stack[|stack| - 1].stateno < T.nxstate
    ensures ShiftReadable(T, t, stack[|stack| - 1].stateno)
    ensures var c, s := TokenCode(T, t, stack[|stack| - 1].stateno), path[|stack| - 1];
      if c >= T.minReduce then Ends(m.g, m.states, s, c - T.minReduce) && (IsStartRule(m.g, c - T.minReduce) ==> t == 0)
      else if c >= T.errAction then c == T.errAction
      else ShiftsTo(m, T, s, t, c) || (T.minShiftReduce <= c && ShiftsAndReduces(m, s, t, c - T.minShiftReduce))
  {
    StateBehindTop(m, T, stack, path, consumed);
    hide Running, ShiftsAndReduces, Ends, GotoSound, Edge;
    assert TokenSound(m, T, stack[|stack| - 1].stateno, t);
  }

  lemma SoundRanges(m: Meaning, T: Tables)
    requires TablesSound(m, T)
    ensures Ranges(T) && T.nrule == |m.g.rules| && T.nterminal == m.g.nterminal
    ensures forall r :: 0 <= r < T.nrule ==> T.ruleNRhs[r] == |m.g.rules[r].rhs|
  {
  }

  /** Only a finished parse has the accept action on top. */
  lemma AcceptOnTop(m: Meaning, T: Tables, stack: seq<Entry>, path: seq<nat>, consumed: seq<nat>, r: nat)
    requires Ranges(T) && stack != []
    requires if IsStartRule(m.g, r) then Finished(m, T, stack, consumed) else Running(m, T, stack, path, consumed)
    ensures stack[|stack| - 1].stateno == T.accAction <==> IsStartRule(m.g, r)
  {
    hide Derives, IsPath, Forced, Sentence;
  }

  lemma NotEmpty(m: Meaning, T: Tables, stack: seq<Entry>, path: seq<nat>, consumed: seq<nat>)
    requires Running(m, T, stack, path, consumed)
    ensures stack != [] && |path| == |stack|
  {
  }

  // ---- The parser object ----

  /** How a call of `Parse` ends.  `OutOfFuel` stands for a loop that has not ended yet. */
  datatype Outcome = Shifted | Accepted | SyntaxError | StackOverflow | OutOfFuel

  datatype Round = Continue | Done(outcome: Outcome)

  /** The action on the next token: what the table says, or the reduction already decided. */
  function ActionOn(T: Tables, stack: seq<Entry>, major: nat): int
    requires stack != []
  {
    var n := stack[|stack| - 1].stateno;
    if n > T.nxstate - 1 then n
    else if 0 <= n && ShiftReadable(T, major, n) then TokenCode(T, major, n)
    else T.errAction
  }

  /** The stack after reducing by `r`, where the goto can be read. */
  function Popped(T: Tables, stack: seq<Entry>, r: int): Option<seq<Entry>> {
    if 0 <= r < |T.ruleNRhs| && r < |T.ruleLhs| && T.ruleNRhs[r] < |stack| then
      var below := stack[..|stack| - T.ruleNRhs[r]];
      var n := below[|below| - 1].stateno;
      if 0 <= n && GotoReadable(T, n, T.ruleLhs[r]) then Some(below + [Entry(GotoCode(T, n, T.ruleLhs[r]), T.ruleLhs[r])]) else None
    else None
  }

  /** A turn that reduces by `r`, together with the accept turn that may follow it. */
  function ReduceRound(T: Tables, limit: nat, stack: seq<Entry>, r: nat): (Round, seq<Entry>)
    requires stack != []
  {
    if r < |T.ruleNRhs| && T.ruleNRhs[r] == 0 && |stack| >= limit then (Done(StackOverflow), [BOTTOM])
    else
      match Popped(T, stack, r)
      case None => (Done(OutOfFuel), stack)
      case Some(s) => if s[|s| - 1].stateno == T.accAction then (Done(Accepted), [BOTTOM]) else (Continue, s)
  }

  /** Carrying out the action `c` on a token. */
  function CarriedOut(T: Tables, limit: nat, stack: seq<Entry>, major: nat, c: int): (Round, seq<Entry>)
    requires stack != []
  {
    if c >= T.minReduce then ReduceRound(T, limit, stack, c - T.minReduce)
    else if c < T.errAction then
      if |stack| >= limit then (Done(StackOverflow), [BOTTOM]) else (Done(Shifted), stack + [Entry(ShiftedState(T, c), major)])
    else (Done(SyntaxError), if major == 0 then [BOTTOM] else stack)
  }

  /** One turn of the main loop as a function: how it ends, and the stack. */
  function RoundOf(T: Tables, limit: nat, stack: seq<Entry>, major: nat): (Round, seq<Entry>)
    requires stack != []
  {
    CarriedOut(T, limit, stack, major, ActionOn(T, stack, major))
  }

  /** Feeding one token as a function. */
  function Fed(T: Tables, limit: nat, stack: seq<Entry>, major: nat, fuel: nat): (Outcome, seq<Entry>)
    requires stack != []
    decreases fuel
  {
    if fuel == 0 then (OutOfFuel, stack)
    else
      match RoundOf(T, limit, stack, major)
      case (Done(o), s) => (o, s)
      case (Continue, s) => if s == [] then (OutOfFuel, s) else Fed(T, limit, s, major, fuel - 1)
  }

  lemma FedNothing(T: Tables, limit: nat, stack: seq<Entry>, major: nat)
    requires stack != []
    ensures Fed(T, limit, stack, major, 0) == (OutOfFuel, stack)
  {
  }

  lemma FedRound(T: Tables, limit: nat, stack: seq<Entry>, major: nat, fuel: nat)
    requires stack != [] && fuel > 0
    ensures var (step, s) := RoundOf(T, limit, stack, major);
      Fed(T, limit, stack, major, fuel) == if step.Done? then (step.outcome, s) else if s == [] then (OutOfFuel, s) else Fed(T, limit, s, major, fuel - 1)
  {
    hide RoundOf;
  }

  /** Rule `r` may be reduced by on the token: it is complete, and start rules wait for the end marker. */
  ghost predicate MayReduce(m: Meaning, T: Tables, stack: seq<Entry>, path: seq<nat>, major: nat, r: nat) {
    && stack != [] && |path| == |stack| && Ends(m.g, m.states, path[|stack| - 1], r) && (IsStartRule(m.g, r) ==> major == 0)
    && (m.g.rules[r].rhs == [] ==>
          && 0 <= stack[|stack| - 1].stateno < T.nxstate && stack[|stack| - 1].stateno < |m.order|
          && m.order[stack[|stack| - 1].stateno] == path[|stack| - 1])
  }

  ghost predicate MayShift(m: Meaning, T: Tables, stack: seq<Entry>, path: seq<nat>, major: nat, c: int) {
    && stack != [] && |path| == |stack| && 0 <= stack[|stack| - 1].stateno < T.nxstate
    && (|| ShiftsTo(m, T, path[|stack| - 1], major, c)
        || (T.minShiftReduce <= c < T.errAction && ShiftsAndReduces(m, path[|stack| - 1], major, c - T.minShiftReduce)))
  }

  /** What a call does to the memory of the last syntax error: an error at a token starts it, an
      accepted or failed parse ends it, and every token that goes to a shift is counted. */
  predicate Noted(o: Outcome, major: nat, erred: bool, calm: nat, erred': bool, calm': nat) {
    match o
    case Shifted => erred' == erred && calm' == calm + 1
    case Accepted => !erred' && calm' == 0
    case SyntaxError => erred' == (major != 0) && calm' == 0
    case StackOverflow => erred' == erred && calm <= calm' <= calm + 1
    case OutOfFuel => erred' == erred && calm' == calm
  }

  lemma NothingNoted(major: nat, erred: bool, calm: nat)
    ensures Noted(OutOfFuel, major, erred, calm, erred, calm)
  {
  }

  class Parser {
    const T: Tables
    const limit: nat                  // the most entries the stack can hold
    var stack: seq<Entry>
    ghost const m: Meaning
    ghost var path: seq<nat>          // the automaton states behind the stack
    ghost var consumed: seq<nat>      // the tokens shifted since the stack was last empty
    var errcnt: int                   // tokens still to be shifted before errors are reported again
    ghost var erred: bool             // there was a syntax error since the last start
    ghost var calm: nat               // how many tokens went to a shift since then

    constructor (T: Tables, limit: nat, ghost m: Meaning)
      requires Consistent(m) && TablesSound(m, T) && limit > 0
      ensures Valid() && this.T == T && this.m == m && this.limit == limit && stack == [BOTTOM] && consumed == [] && Counts() && !erred && calm == 0
    {
      this.T, this.limit, this.m := T, limit, m;
      stack, path, consumed := [BOTTOM], [0], [];
      errcnt, erred, calm := -1, false, 0;
      StartRuns(m, T);
    }

    /** The counter `yyerrcnt` counts down from three after an error, and from -1 after a start. */
    ghost predicate Counts()
      reads this`errcnt, this`erred, this`calm
    {
      errcnt == (if erred then 3 else -1) - calm
    }

    ghost predicate Valid()
      reads this`stack, this`path, this`consumed
    {
      Consistent(m) && TablesSound(m, T) && limit > 0 && Running(m, T, stack, path, consumed)
    }

    lemma BottomStays()
      requires Valid()
      ensures stack != []
    {
      NotEmpty(m, T, stack, path, consumed);
    }

    method Reset()
      requires Consistent(m) && TablesSound(m, T) && limit > 0
      modifies this`stack, this`path, this`consumed
      ensures Valid() && stack == [BOTTOM] && consumed == []
    {
      stack, path, consumed := [BOTTOM], [0], [];
      StartRuns(m, T);
    }

    /** `yy_reduce`: pop the right-hand side, which is on the stack, and push the left-hand side. */
    method Reduce(r: nat)
      requires Valid() && Ends(m.g, m.states, path[|stack| - 1], r)
      requires m.g.rules[r].rhs == [] ==> 0 <= stack[|stack| - 1].stateno < T.nxstate && stack[|stack| - 1].stateno < |m.order| && m.order[stack[|stack| - 1].stateno] == path[|stack| - 1]
      modifies this`stack, this`path
      ensures if IsStartRule(m.g, r) then Finished(m, T, stack, consumed) else Running(m, T, stack, path, consumed)
      ensures Popped(T, old(stack), r) == Some(stack)
    {
      hide IsAutomaton, ValidGrammar, NoStartOnRhs, TokenSound, GotoSound, Derives, Finished, Running, Consistent, IsPath;
      ghost var path' := ReduceRuns(m, T, stack, path, consumed, r);
      var size := T.ruleNRhs[r];
      var below := stack[..|stack| - size];
      var c := GotoCode(T, below[|below| - 1].stateno, T.ruleLhs[r]);
      stack := below + [Entry(c, T.ruleLhs[r])];
      path := path';
    }

    /** `yy_shift` */
    method Shift(major: nat, c: int) returns (ok: bool)
      requires Valid() && major < T.nterminal && MayShift(m, T, stack, path, major, c)
      modifies this`stack, this`path, this`consumed
      ensures Valid()
      ensures if ok then consumed == old(consumed) + [major] else stack == [BOTTOM] && consumed == []
      ensures ok <==> |old(stack)| < limit
      ensures ok ==> stack == old(stack) + [Entry(ShiftedState(T, c), major)]
    {
      hide IsAutomaton, ValidGrammar, NoStartOnRhs, TokenSound, GotoSound, Derives, IsPath, ShiftsTo, ShiftsAndReduces, Consistent, Forced;
      if |stack| >= limit {
        Reset();
        return false;
      }
      SoundRanges(m, T);
      StateBehindTop(m, T, stack, path, consumed);
      ghost var to := ShiftRuns(m, T, stack, path, consumed, major, c);
      stack := stack + [Entry(ShiftedState(T, c), major)];
      path := path + [to];
      consumed := consumed + [major];
      return true;
    }

    /** `Parse`: feed one token.  Acceptance happens on the end marker only, and then the tokens
        shifted so far are a sentence of the grammar.  A shifted token is appended to them; no other
        outcome adds a token.  A syntax error is reported unless fewer than three tokens were
        shifted since the last one. */
    method Parse(major: nat, fuel: nat) returns (outcome: Outcome, reported: bool)
      requires Valid() && Counts() && major < T.nterminal
      modifies this
      ensures Valid() && Counts()
      ensures reported <==> outcome == SyntaxError && (old(erred) ==> old(calm) >= 3)
      ensures Noted(outcome, major, old(erred), old(calm), erred, calm)
      ensures outcome == Accepted ==> major == 0 && Sentence(m.g, old(consumed)) && stack == [BOTTOM] && consumed == []
      ensures outcome == Shifted ==> consumed == old(consumed) + [major]
      ensures outcome == SyntaxError ==> consumed == (if major == 0 then [] else old(consumed))
      ensures outcome == StackOverflow ==> stack == [BOTTOM] && consumed == []
      ensures outcome == OutOfFuel ==> consumed == old(consumed)
      ensures old(stack) != [] && (outcome, stack) == Fed(T, limit, old(stack), major, fuel)
    {
      hide *;
      BottomStays();
      var left := fuel;
      FedNothing(T, limit, stack, major);
      while left > 0
        invariant Valid() && Counts() && consumed == old(consumed) && stack != [] && erred == old(erred) && calm == old(calm)
        invariant Fed(T, limit, old(stack), major, fuel) == Fed(T, limit, stack, major, left)
      {
        FedRound(T, limit, stack, major, left);
        left := left - 1;
        var step, told := OneStep(major);
        BottomStays();
        match step
        case Continue =>
        case Done(o) => return o, told;
      }
      FedNothing(T, limit, stack, major);
      NothingNoted(major, erred, calm);
      outcome, reported := OutOfFuel, false;
    }

    /** `yy_find_shift_action`, or the reduction already decided. */
    method FindShiftAction(major: nat) returns (c: int)
      requires Valid() && major < T.nterminal
      ensures stack != [] && c == ActionOn(T, stack, major)
      ensures c >= T.minReduce ==> MayReduce(m, T, stack, path, major, c - T.minReduce)
      ensures c < T.errAction ==> MayShift(m, T, stack, path, major, c)
    {
      hide IsAutomaton, ValidGrammar, NoStartOnRhs, TablesSound, Derives, IsPath, Consistent, TopOk, ShiftsTo, ShiftsAndReduces;
      SoundRanges(m, T);
      NotEmpty(m, T, stack, path, consumed);
      var n := stack[|stack| - 1].stateno;
      if n > T.nxstate - 1 {
        DecidedTop(m, T, stack, path, consumed);
        c := n;
      } else {
        StateBehindTop(m, T, stack, path, consumed);
        EntrySound(m, T, stack, path, consumed, major);
        c := TokenCode(T, major, n);
      }
    }

    /** A turn that reduces, together with the accept turn that may follow it. */
    method ReduceTurn(major: nat, r: nat) returns (step: Round)
      requires Valid() && major < T.nterminal && MayReduce(m, T, stack, path, major, r)
      modifies this`stack, this`path, this`consumed
      ensures Valid() && (step == Continue || step == Done(Accepted) || step == Done(StackOverflow))
      ensures step == Continue ==> consumed == old(consumed)
      ensures step == Done(Accepted) ==> major == 0 && Sentence(m.g, old(consumed)) && stack == [BOTTOM] && consumed == []
      ensures step == Done(StackOverflow) ==> stack == [BOTTOM] && consumed == []
      ensures old(stack) != [] && (step, stack) == ReduceRound(T, limit, old(stack), r)
    {
      hide IsAutomaton, ValidGrammar, NoStartOnRhs, TablesSound, Derives, IsPath, Consistent, TopOk, Sentence, Popped;
      SoundRanges(m, T);
      if T.ruleNRhs[r] == 0 && |stack| >= limit {
        Reset();
        return Done(StackOverflow);
      }
      Reduce(r);
      AcceptOnTop(m, T, stack, path, consumed, r);
      if stack[|stack| - 1].stateno == T.accAction {
        Reset();
        return Done(Accepted);
      }
      return Continue;
    }

    /** One turn of the main loop. */
    method OneStep(major: nat) returns (step: Round, reported: bool)
      requires Valid() && Counts() && major < T.nterminal
      modifies this
      ensures Valid() && Counts()
      ensures reported <==> step == Done(SyntaxError) && (old(erred) ==> old(calm) >= 3)
      ensures step.Continue? ==> erred == old(erred) && calm == old(calm)
      ensures step.Done? ==> Noted(step.outcome, major, old(erred), old(calm), erred, calm)
      ensures step.Continue? ==> consumed == old(consumed)
      ensures step == Done(Accepted) ==> major == 0 && Sentence(m.g, old(consumed)) && stack == [BOTTOM] && consumed == []
      ensures step == Done(Shifted) ==> consumed == old(consumed) + [major]
      ensures step == Done(SyntaxError) ==> consumed == (if major == 0 then [] else old(consumed))
      ensures step == Done(StackOverflow) ==> stack == [BOTTOM] && consumed == []
      ensures step.Done? ==> step.outcome != OutOfFuel
      ensures old(stack) != [] && (step, stack) == RoundOf(T, limit, old(stack), major)
    {
      hide TablesSound, Consistent, Running, Sentence, ActionOn, ReduceRound, MayReduce, MayShift, ShiftedState;
      var c := FindShiftAction(major);
      reported := false;
      if c >= T.minReduce {
        step := ReduceTurn(major, c - T.minReduce);
        if step == Done(Accepted) { errcnt, erred, calm := -1, false, 0; }
      } else if c < T.errAction {
        var ok := Shift(major, c);
        errcnt, calm := errcnt - 1, calm + 1;
        step := Done(if ok then Shifted else StackOverflow);
      } else {
        reported := errcnt <= 0;
        errcnt, erred, calm := 3, true, 0;
        if major == 0 {
          Reset();
          errcnt, erred := -1, false;
        }
        step := Done(SyntaxError);
      }
    }
  }
}
