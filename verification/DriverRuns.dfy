/** The generated parser, on tables that say what the finished lists say, takes the turns of the
    machine that reads those lists. */
module DriverRuns {
  import opened Wrappers
  import opened Grammars
  import opened Closures
  import opened Automata
  import opened StackInvariant
  import opened Driver
  import opened Actions
  import opened Compress
  import opened TableGen
  import Machine
  import Completeness
  import CompressionRuns

  // ---- Tables and lists that say the same ----

  /** The number `c` says what `move` says. */
  predicate TokenMeans(T: Tables, order: seq<nat>, move: Option<Move>, c: int) {
    match move
    case None => c == T.errAction
    case Some(Move(SHIFT, k)) => 0 <= c < T.nxstate && c < |order| && order[c] == k
    case Some(Move(SHIFTREDUCE, r)) => r < T.nrule && c == T.minShiftReduce + r
    case Some(Move(REDUCE, r)) => c == T.minReduce + r
    case _ => false
  }

  predicate GotoMeans(T: Tables, order: seq<nat>, move: Move, c: int) {
    match move
    case Move(SHIFT, k) => 0 <= c < T.nxstate && c < |order| && order[c] == k
    case Move(SHIFTREDUCE, r) => c == T.minReduce + r
    case Move(ACCEPT, _) => c == T.accAction
    case _ => false
  }

  ghost predicate TokenMirrored(m: Meaning, T: Tables, finals: seq<seq<Action>>, n: nat, t: nat) {
    && n < |m.order| && m.order[n] < |finals| && ShiftReadable(T, t, n)
    && TokenMeans(T, m.order, Lookup(finals[m.order[n]], t, m.g.nsymbol), TokenCode(T, t, n))
  }

  /** What a state has on a nonterminal can be read, and it has something on all it can meet. */
  ghost predicate GotoMirrored(m: Meaning, T: Tables, finals: seq<seq<Action>>, n: nat, a: nat) {
    && n < |m.order| && m.order[n] < |finals|
    && var move := Machine.Goto(finals[m.order[n]], a);
       && (Awaits(m, m.order[n], a) || (n == 0 && a == m.g.start) ==> move.Some?)
       && (move.Some? && move.value.kind == ACCEPT ==> a == m.g.start)
       && (move.Some? ==> GotoReadable(T, n, a) && GotoMeans(T, m.order, move.value, GotoCode(T, n, a)))
  }

  ghost predicate Mirrors(m: Meaning, T: Tables, finals: seq<seq<Action>>) {
    && (forall n: nat, t: nat :: n < T.nxstate && t < m.g.nterminal ==> TokenMirrored(m, T, finals, n, t))
    && (forall n: nat, a: nat :: n < T.nxstate && m.g.nterminal <= a < m.g.nsymbol ==> GotoMirrored(m, T, finals, n, a))
  }

  // ---- Stacks that say the same ----

  predicate SameTop(T: Tables, order: seq<nat>, x: Machine.Top, e: Entry) {
    match x
    case AtState(k) => 0 <= e.stateno < T.nxstate && e.stateno < |order| && order[e.stateno] == k
    case Pending(r) => e.stateno == T.minReduce + r
  }

  predicate SameStack(T: Tables, order: seq<nat>, tops: seq<Machine.Top>, stack: seq<Entry>) {
    |tops| == |stack| && forall i :: 0 <= i < |stack| ==> SameTop(T, order, tops[i], stack[i])
  }

  lemma SameBelow(T: Tables, order: seq<nat>, tops: seq<Machine.Top>, stack: seq<Entry>, n: nat, x: Machine.Top, e: Entry)
    requires SameStack(T, order, tops, stack) && n <= |stack| && SameTop(T, order, x, e)
    ensures SameStack(T, order, tops[..n] + [x], stack[..n] + [e])
  {
    hide SameTop;
  }

  /** A round of the driver is the turn `o` of the machine on an input that starts with the token. */
  ghost predicate SameRound(T: Tables, order: seq<nat>, limit: nat, input: seq<nat>, o: Machine.Outcome, round: (Round, seq<Entry>)) {
    match o
    case Next(c) =>
      if |c.stack| > limit then round == (Done(StackOverflow), [BOTTOM])
      else
        SameStack(T, order, c.stack, round.1) && ((round.0 == Continue && c.input == input) || (round.0 == Done(Shifted) && input != [] && c.input == input[1..]))
    case Accept => round == (Done(if limit > 1 then Accepted else StackOverflow), [BOTTOM])
    case Error => round.0 == Done(SyntaxError)
    case Halt(_) => false
  }

  /** The driver has reached `stack`, the machine `c`. */
  ghost predicate InStep(m: Meaning, T: Tables, limit: nat, stack: seq<Entry>, path: seq<nat>, consumed: seq<nat>, c: Machine.Conf) {
    && Running(m, T, stack, path, consumed) && SameStack(T, m.order, c.stack, stack) && |stack| <= limit
    && c.input != [] && c.input[0] < m.g.nterminal
  }

  lemma TopState(m: Meaning, T: Tables, stack: seq<Entry>, path: seq<nat>, consumed: seq<nat>, tops: seq<Machine.Top>, i: nat)
    returns (s: nat)
    requires Ranges(T) && Running(m, T, stack, path, consumed) && SameStack(T, m.order, tops, stack) && i < |stack|
    requires i < |stack| - 1 || stack[i].stateno < T.nxstate
    ensures s == stack[i].stateno && s < T.nxstate && s < |m.order| && tops[i] == Machine.AtState(m.order[s]) && m.order[s] == path[i]
  {
    hide IsPath, Derives, Forced;
    assert SameTop(T, m.order, tops[i], stack[i]);
    s := stack[i].stateno;
  }

  lemma GotoFound(m: Meaning, T: Tables, finals: seq<seq<Action>>, s: nat, a: nat)
    requires Mirrors(m, T, finals) && s < T.nxstate && m.g.nterminal <= a < m.g.nsymbol
    ensures GotoMirrored(m, T, finals, s, a)
  {
    hide GotoMirrored;
  }

  lemma BottomState(m: Meaning, T: Tables, stack: seq<Entry>, path: seq<nat>, consumed: seq<nat>)
    requires Running(m, T, stack, path, consumed)
    ensures stack != [] && stack[0].stateno == 0
  {
    hide IsPath, Derives;
  }

  /** A turn that lands on what the goto says. */
  lemma SameLanding(m: Meaning, T: Tables, finals: seq<seq<Action>>, limit: nat, stack: seq<Entry>, tops: seq<Machine.Top>, input: seq<nat>, n: nat, s: nat, a: nat, empty: bool)
    requires Ranges(T) && s < T.nxstate && SameStack(T, m.order, tops, stack) && 0 < n <= |stack| <= limit && (empty <==> n == |stack|)
    requires GotoMirrored(m, T, finals, s, a) && Machine.Goto(finals[m.order[s]], a).Some?
    requires (Machine.Goto(finals[m.order[s]], a).value.kind == ACCEPT) ==> n == 1
    ensures var move := Machine.Goto(finals[m.order[s]], a);
      SameRound(T, m.order, limit, input, Machine.Landed(tops[..n], input, move),
        if empty && |stack| >= limit then (Done(StackOverflow), [BOTTOM])
        else if GotoCode(T, s, a) == T.accAction then (Done(Accepted), [BOTTOM])
        else (Continue, stack[..n] + [Entry(GotoCode(T, s, a), a)]))
  {
    var c := GotoCode(T, s, a);
    assert |tops| == |stack|;
    hide SameStack, Awaits;
    match Machine.Goto(finals[m.order[s]], a).value
    case Move(SHIFT, k) => SameBelow(T, m.order, tops, stack, n, Machine.AtState(k), Entry(c, a));
    case Move(SHIFTREDUCE, r) => SameBelow(T, m.order, tops, stack, n, Machine.Pending(r), Entry(c, a));
    case _ =>
  }
  /** Both reduce by `r` and land on the same. */
  lemma SameReduce(m: Meaning, T: Tables, finals: seq<seq<Action>>, limit: nat, stack: seq<Entry>, path: seq<nat>, consumed: seq<nat>, c: Machine.Conf, r: nat)
    requires Machine.RulesOk(RulesOf(m.g)) && Consistent(m) && TablesSound(m, T) && Mirrors(m, T, finals) && InStep(m, T, limit, stack, path, consumed, c)
    requires Ends(m.g, m.states, path[|stack| - 1], r)
    requires m.g.rules[r].rhs == [] ==> stack[|stack| - 1].stateno < T.nxstate
    ensures SameRound(T, m.order, limit, c.input, Machine.ReduceBy(RulesOf(m.g), finals, c, r), ReduceRound(T, limit, stack, r))
  {
    hide IsAutomaton, ValidGrammar, NoStartOnRhs, Derives, Edge, Forced, TokenSound, GotoSound, OnTop, Awaits, IsPath, Word, Lookup, SameTop, Mirrors, Machine.Goto, GotoMeans;
    ReduceLands(m, T, stack, path, consumed, r);
    var n := |stack| - |m.g.rules[r].rhs|;
    var s := TopState(m, T, stack, path, consumed, c.stack, n - 1);
    BottomState(m, T, stack, path, consumed);
    var a := RulesOf(m.g).lhs[r];
    GotoFound(m, T, finals, s, a);
    hide Running, Consistent, TablesSound;
    SameLanding(m, T, finals, limit, stack, c.stack, c.input, n, s, a, m.g.rules[r].rhs == []);
    hide SameRound;
    assert stack[..n][n - 1] == stack[n - 1];
    assert c.stack[..n][n - 1] == c.stack[n - 1];
  }

  lemma DecidedTurn(G: Machine.Rules, rows: seq<seq<Action>>, c: Machine.Conf, T: Tables, limit: nat, stack: seq<Entry>, r: nat)
    requires Machine.RulesOk(G) && c.input != [] && c.stack != [] && c.stack[|c.stack| - 1] == Machine.Pending(r)
    requires stack != [] && T.nxstate <= stack[|stack| - 1].stateno == T.minReduce + r
    ensures Machine.Turn(G, rows, c) == Machine.ReduceBy(G, rows, c, r) && RoundOf(T, limit, stack, c.input[0]) == ReduceRound(T, limit, stack, r)
  {
    hide Machine.ReduceBy, ReduceRound, Machine.RulesOk;
  }

  /** A reduction that is already decided. */
  lemma DecidedIsTurn(m: Meaning, T: Tables, finals: seq<seq<Action>>, limit: nat, stack: seq<Entry>, path: seq<nat>, consumed: seq<nat>, c: Machine.Conf)
    requires Machine.RulesOk(RulesOf(m.g)) && Consistent(m) && TablesSound(m, T) && Mirrors(m, T, finals) && InStep(m, T, limit, stack, path, consumed, c)
    requires stack != [] && c.input != [] && stack[|stack| - 1].stateno >= T.nxstate
    ensures SameRound(T, m.order, limit, c.input, Machine.Turn(RulesOf(m.g), finals, c), RoundOf(T, limit, stack, c.input[0]))
  {
    hide *;
    var n := stack[|stack| - 1].stateno;
    SoundRanges(m, T);
    StepHeight(m, T, limit, stack, path, consumed, c);
    TopIs(T, m.order, c.stack, stack);
    DecidedTop(m, T, stack, path, consumed);
    ForcedEnds(m, path[|stack| - 1], n - T.minReduce);
    SameReduce(m, T, finals, limit, stack, path, consumed, c, n - T.minReduce);
    DecidedTurn(RulesOf(m.g), finals, c, T, limit, stack, n - T.minReduce);
  }

  lemma EntryTurn(m: Meaning, rows: seq<seq<Action>>, c: Machine.Conf, T: Tables, limit: nat, stack: seq<Entry>, s: nat)
    requires Machine.RulesOk(RulesOf(m.g)) && c.input != [] && s < |m.order| && m.order[s] < |rows|
    requires c.stack != [] && c.stack[|c.stack| - 1] == Machine.AtState(m.order[s])
    requires stack != [] && stack[|stack| - 1].stateno == s < T.nxstate && ShiftReadable(T, c.input[0], s)
    ensures Machine.Turn(RulesOf(m.g), rows, c) == Machine.Obey(RulesOf(m.g), rows, c, Lookup(rows[m.order[s]], c.input[0], m.g.nsymbol))
    ensures RoundOf(T, limit, stack, c.input[0]) == CarriedOut(T, limit, stack, c.input[0], TokenCode(T, c.input[0], s))
  {
    hide Machine.Obey, Machine.RulesOk, CarriedOut, Lookup, ShiftReadable, TokenCode;
  }

  /** A state on top: what it says on the next token. */
  lemma EntryIsTurn(m: Meaning, T: Tables, finals: seq<seq<Action>>, limit: nat, stack: seq<Entry>, path: seq<nat>, consumed: seq<nat>, c: Machine.Conf)
    requires Machine.RulesOk(RulesOf(m.g)) && Consistent(m) && TablesSound(m, T) && Mirrors(m, T, finals) && InStep(m, T, limit, stack, path, consumed, c)
    requires stack != [] && c.input != [] && stack[|stack| - 1].stateno < T.nxstate
    ensures SameRound(T, m.order, limit, c.input, Machine.Turn(RulesOf(m.g), finals, c), RoundOf(T, limit, stack, c.input[0]))
  {
    hide *;
    var t := c.input[0];
    SoundRanges(m, T);
    StepHeight(m, T, limit, stack, path, consumed, c);
    var s := TopState(m, T, stack, path, consumed, c.stack, |stack| - 1);
    EntrySound(m, T, stack, path, consumed, t);
    TokenFound(m, T, finals, s, t);
    var code := TokenCode(T, t, s);
    if code >= T.minReduce { SameReduce(m, T, finals, limit, stack, path, consumed, c, code - T.minReduce); }
    SameObey(m, T, finals, limit, stack, c, Lookup(finals[m.order[s]], t, m.g.nsymbol), code);
    EntryTurn(m, finals, c, T, limit, stack, s);
  }

  /** One round of the driver is one turn of the machine. */
  lemma RoundIsTurn(m: Meaning, T: Tables, finals: seq<seq<Action>>, limit: nat, stack: seq<Entry>, path: seq<nat>, consumed: seq<nat>, c: Machine.Conf)
    requires Machine.RulesOk(RulesOf(m.g)) && Consistent(m) && TablesSound(m, T) && Mirrors(m, T, finals) && InStep(m, T, limit, stack, path, consumed, c)
    ensures stack != [] && SameRound(T, m.order, limit, c.input, Machine.Turn(RulesOf(m.g), finals, c), RoundOf(T, limit, stack, c.input[0]))
  {
    hide *;
    StepHeight(m, T, limit, stack, path, consumed, c);
    BottomState(m, T, stack, path, consumed);
    if stack[|stack| - 1].stateno >= T.nxstate {
      DecidedIsTurn(m, T, finals, limit, stack, path, consumed, c);
    } else {
      EntryIsTurn(m, T, finals, limit, stack, path, consumed, c);
    }
  }

  lemma TopIs(T: Tables, order: seq<nat>, tops: seq<Machine.Top>, stack: seq<Entry>)
    requires Ranges(T) && SameStack(T, order, tops, stack) && stack != []
    ensures var n := stack[|stack| - 1].stateno;
      n >= T.nxstate ==> n >= T.minReduce && tops[|tops| - 1] == Machine.Pending(n - T.minReduce)
  {
    assert SameTop(T, order, tops[|tops| - 1], stack[|stack| - 1]);
  }

  lemma ForcedEnds(m: Meaning, s: nat, r: nat)
    requires Forced(m.g, m.states, s, r)
    ensures Ends(m.g, m.states, s, r) && m.g.rules[r].rhs != []
  {
  }

  lemma TokenFound(m: Meaning, T: Tables, finals: seq<seq<Action>>, s: nat, t: nat)
    requires Mirrors(m, T, finals) && s < T.nxstate && t < m.g.nterminal
    ensures s < |m.order| && m.order[s] < |finals| && ShiftReadable(T, t, s)
    ensures TokenMeans(T, m.order, Lookup(finals[m.order[s]], t, m.g.nsymbol), TokenCode(T, t, s))
  {
    hide TokenMeans, ShiftReadable, GotoMirrored;
    assert TokenMirrored(m, T, finals, s, t);
  }

  /** Obeying the same entry. */
  lemma SameObey(m: Meaning, T: Tables, finals: seq<seq<Action>>, limit: nat, stack: seq<Entry>, c: Machine.Conf, move: Option<Move>, code: int)
    requires Ranges(T) && Machine.RulesOk(RulesOf(m.g)) && SameStack(T, m.order, c.stack, stack) && 0 < |stack| <= limit && c.input != []
    requires TokenMeans(T, m.order, move, code)
    requires code >= T.minReduce ==>
      SameRound(T, m.order, limit, c.input, Machine.ReduceBy(RulesOf(m.g), finals, c, code - T.minReduce), ReduceRound(T, limit, stack, code - T.minReduce))
    ensures SameRound(T, m.order, limit, c.input, Machine.Obey(RulesOf(m.g), finals, c, move), CarriedOut(T, limit, stack, c.input[0], code))
  {
    assert |c.stack| == |stack| && c.stack[..|stack|] == c.stack && stack[..|stack|] == stack;
    hide SameStack, Machine.ReduceBy, ReduceRound;
    match move
    case Some(Move(SHIFT, k)) => SameBelow(T, m.order, c.stack, stack, |stack|, Machine.AtState(k), Entry(code, c.input[0]));
    case Some(Move(SHIFTREDUCE, r)) => SameBelow(T, m.order, c.stack, stack, |stack|, Machine.Pending(r), Entry(ShiftedState(T, code), c.input[0]));
    case _ =>
  }

  /** The symbols of rule `r` leave the top of the stack and its left-hand side takes their place. */
  ghost predicate ReducesTo(m: Meaning, stack: seq<Entry>, stack': seq<Entry>, r: nat) {
    && r < |m.g.rules| && |m.g.rules[r].rhs| < |stack| && OnTop(m.g, Majors(stack), Item(r, |m.g.rules[r].rhs|))
    && |stack'| == |stack| - |m.g.rules[r].rhs| + 1 && stack'[..|stack'| - 1] == stack[..|stack'| - 1]
    && stack'[|stack'| - 1].major == m.g.rules[r].lhs
  }

  /** The driver goes on only after a reduce by a rule other than a start rule, and its stack
      follows a path again; it never gets stuck. */
  lemma ContinueRuns(m: Meaning, T: Tables, limit: nat, stack: seq<Entry>, path: seq<nat>, consumed: seq<nat>, t: nat)
    returns (path': seq<nat>, r: nat)
    requires Consistent(m) && TablesSound(m, T) && Running(m, T, stack, path, consumed) && t < m.g.nterminal
    ensures stack != [] && RoundOf(T, limit, stack, t).0 != Done(OutOfFuel)
    ensures RoundOf(T, limit, stack, t).0 == Continue ==> GoesTo(m, T, limit, stack, RoundOf(T, limit, stack, t).1, path', consumed, r)
  {
    SoundRanges(m, T);
    BottomState(m, T, stack, path, consumed);
    hide TablesSound, Consistent, Running, Ends, IsStartRule, ShiftsTo, ShiftsAndReduces, Forced, ReduceRound, GoesTo;
    var n := stack[|stack| - 1].stateno;
    path', r := path, 0;
    if n >= T.nxstate {
      DecidedTop(m, T, stack, path, consumed);
      r := n - T.minReduce;
      ForcedEnds(m, path[|stack| - 1], r);
      path' := ReducedOn(m, T, limit, stack, path, consumed, r);
    } else {
      StateBehindTop(m, T, stack, path, consumed);
      EntrySound(m, T, stack, path, consumed, t);
      var c := TokenCode(T, t, n);
      if c >= T.minReduce {
        r := c - T.minReduce;
        path' := ReducedOn(m, T, limit, stack, path, consumed, r);
      }
    }
  }

  ghost predicate GoesTo(m: Meaning, T: Tables, limit: nat, stack: seq<Entry>, stack': seq<Entry>, path: seq<nat>, consumed: seq<nat>, r: nat) {
    Running(m, T, stack', path, consumed) && ReducesTo(m, stack, stack', r) && (|stack| <= limit ==> |stack'| <= limit)
  }

  lemma ReducedOn(m: Meaning, T: Tables, limit: nat, stack: seq<Entry>, path: seq<nat>, consumed: seq<nat>, r: nat)
    returns (path': seq<nat>)
    requires Consistent(m) && TablesSound(m, T) && Running(m, T, stack, path, consumed) && Ends(m.g, m.states, path[|stack| - 1], r)
    requires m.g.rules[r].rhs == [] ==> stack[|stack| - 1].stateno < T.nxstate
    ensures ReduceRound(T, limit, stack, r).0 != Done(OutOfFuel)
    ensures ReduceRound(T, limit, stack, r).0 == Continue ==> GoesTo(m, T, limit, stack, ReduceRound(T, limit, stack, r).1, path', consumed, r)
  {
    hide *;
    BottomState(m, T, stack, path, consumed);
    ReduceOnTop(m, T, stack, path, consumed, r);
    SoundRules(m, T, r);
    if stack[|stack| - 1].stateno < T.nxstate { StateBehindTop(m, T, stack, path, consumed); }
    path' := ReduceRuns(m, T, stack, path, consumed, r);
    var stack' := PoppedRuns(m, T, stack, path', consumed, r);
    AcceptOnTop(m, T, stack', path', consumed, r);
    RoundGoes(m, T, limit, stack, stack', path', consumed, r);
  }

  lemma ReduceOnTop(m: Meaning, T: Tables, stack: seq<Entry>, path: seq<nat>, consumed: seq<nat>, r: nat)
    requires Consistent(m) && Running(m, T, stack, path, consumed) && Ends(m.g, m.states, path[|stack| - 1], r)
    ensures r < |m.g.rules| && |path| == |stack| && OnTop(m.g, Majors(stack), Item(r, |m.g.rules[r].rhs|))
  {
    ReduceLands(m, T, stack, path, consumed, r);
    hide Consistent, OnTop, Awaits, Derives;
  }

  lemma RoundGoes(m: Meaning, T: Tables, limit: nat, stack: seq<Entry>, stack': seq<Entry>, path: seq<nat>, consumed: seq<nat>, r: nat)
    requires stack != [] && stack' != [] && Popped(T, stack, r) == Some(stack') && ReducesTo(m, stack, stack', r)
    requires r < |T.ruleNRhs| && T.ruleNRhs[r] == |m.g.rules[r].rhs|
    requires stack'[|stack'| - 1].stateno != T.accAction ==> Running(m, T, stack', path, consumed)
    ensures ReduceRound(T, limit, stack, r).0 != Done(OutOfFuel)
    ensures ReduceRound(T, limit, stack, r).0 == Continue ==> GoesTo(m, T, limit, stack, ReduceRound(T, limit, stack, r).1, path, consumed, r)
  {
    hide Running, Popped, OnTop;
  }

  lemma PoppedRuns(m: Meaning, T: Tables, stack: seq<Entry>, path: seq<nat>, consumed: seq<nat>, r: nat)
    returns (stack': seq<Entry>)
    requires Reduced(m, T, stack, path, consumed, r) && OnTop(m.g, Majors(stack), Item(r, |m.g.rules[r].rhs|))
    requires r < |T.ruleLhs| == |T.ruleNRhs| && T.ruleLhs[r] == m.g.rules[r].lhs && T.ruleNRhs[r] == |m.g.rules[r].rhs|
    ensures stack' != [] && Popped(T, stack, r) == Some(stack') && ReducesTo(m, stack, stack', r)
    ensures if IsStartRule(m.g, r) then Finished(m, T, stack', consumed) else Running(m, T, stack', path, consumed)
  {
    hide Running, Finished, GotoReadable, GotoCode, IsStartRule, OnTop;
    stack' := Popped(T, stack, r).value;
  }

  lemma SoundRules(m: Meaning, T: Tables, r: nat)
    requires TablesSound(m, T) && r < |m.g.rules|
    ensures Ranges(T) && r < |T.ruleLhs| == |T.ruleNRhs| && T.ruleLhs[r] == m.g.rules[r].lhs && T.ruleNRhs[r] == |m.g.rules[r].rhs|
  {
    hide TokenSound, GotoSound;
  }

  // ---- Feeding a token ----

  /** What the outcome of feeding the first token of `c.input` says about the machine. */
  ghost predicate FedMeans(m: Meaning, T: Tables, finals: seq<seq<Action>>, limit: nat, c: Machine.Conf, fuel: nat, fed: (Outcome, seq<Entry>), n: nat, c': Machine.Conf)
    requires Machine.RulesOk(RulesOf(m.g))
  {
    && n <= fuel && Machine.StepsWithin(RulesOf(m.g), finals, c, n, limit, c') && c.input != []
    && match fed.0
       case Shifted => c'.input == c.input[1..] && SameStack(T, m.order, c'.stack, fed.1)
       case Accepted => Machine.Turn(RulesOf(m.g), finals, c') == Machine.Accept && n < fuel
       case SyntaxError => Machine.Turn(RulesOf(m.g), finals, c') == Machine.Error
       case StackOverflow => Outgrows(RulesOf(m.g), finals, c', limit)
       case OutOfFuel => n == fuel && c'.input == c.input
  }

  /** The next turn needs more than `limit` entries. */
  ghost predicate Outgrows(G: Machine.Rules, rows: seq<seq<Action>>, c: Machine.Conf, limit: nat)
    requires Machine.RulesOk(G)
  {
    match Machine.Turn(G, rows, c)
    case Next(c') => |c'.stack| > limit
    case Accept => limit <= 1
    case _ => false
  }

  /** A round that ends the call. */
  lemma FedStops(m: Meaning, T: Tables, finals: seq<seq<Action>>, limit: nat, c: Machine.Conf, fuel: nat, round: (Round, seq<Entry>))
    returns (n: nat, c': Machine.Conf)
    requires Machine.RulesOk(RulesOf(m.g)) && fuel > 0 && c.input != [] && |c.stack| <= limit && round.0.Done?
    requires SameRound(T, m.order, limit, c.input, Machine.Turn(RulesOf(m.g), finals, c), round)
    ensures FedMeans(m, T, finals, limit, c, fuel, (round.0.outcome, round.1), n, c')
  {
    hide SameStack, RulesOf, Machine.Turn;
    var o := Machine.Turn(RulesOf(m.g), finals, c);
    n, c' := 0, c;
    if o.Next? && |o.c.stack| <= limit {
      n, c' := 1, o.c;
      Machine.OneStep(RulesOf(m.g), finals, c, limit, o.c);
    }
  }

  /** A turn before the rest of the call. */
  lemma FedMore(m: Meaning, T: Tables, finals: seq<seq<Action>>, limit: nat, c: Machine.Conf, c1: Machine.Conf, fuel: nat, fed: (Outcome, seq<Entry>), n: nat, c': Machine.Conf)
    requires Machine.RulesOk(RulesOf(m.g)) && |c.stack| <= limit && c.input == c1.input && Machine.Turn(RulesOf(m.g), finals, c) == Machine.Next(c1)
    requires FedMeans(m, T, finals, limit, c1, fuel, fed, n, c')
    ensures FedMeans(m, T, finals, limit, c, fuel + 1, fed, n + 1, c')
  {
    hide SameStack, RulesOf, Machine.Turn, Outgrows;
  }

  lemma FedNone(m: Meaning, T: Tables, finals: seq<seq<Action>>, limit: nat, stack: seq<Entry>, path: seq<nat>, consumed: seq<nat>, c: Machine.Conf)
    requires Machine.RulesOk(RulesOf(m.g)) && InStep(m, T, limit, stack, path, consumed, c)
    ensures stack != [] && FedMeans(m, T, finals, limit, c, 0, Fed(T, limit, stack, c.input[0], 0), 0, c)
  {
    BottomState(m, T, stack, path, consumed);
    hide Running, SameTop, RulesOf;
  }

  /** After a round that goes on, driver and machine are in step again. */
  lemma StillInStep(m: Meaning, T: Tables, limit: nat, stack: seq<Entry>, path: seq<nat>, consumed: seq<nat>, c: Machine.Conf, o: Machine.Outcome, round: (Round, seq<Entry>), path': seq<nat>, r: nat)
    requires InStep(m, T, limit, stack, path, consumed, c) && SameRound(T, m.order, limit, c.input, o, round) && round.0 == Continue
    requires GoesTo(m, T, limit, stack, round.1, path', consumed, r)
    ensures o.Next? && o.c.input == c.input && round.1 != [] && InStep(m, T, limit, round.1, path', consumed, o.c)
  {
    BottomState(m, T, round.1, path', consumed);
    hide Running, SameTop;
  }

  lemma StepHeight(m: Meaning, T: Tables, limit: nat, stack: seq<Entry>, path: seq<nat>, consumed: seq<nat>, c: Machine.Conf)
    requires InStep(m, T, limit, stack, path, consumed, c)
    ensures c.input != [] && c.input[0] < m.g.nterminal && Running(m, T, stack, path, consumed)
    ensures |path| == |c.stack| == |stack| <= limit && SameStack(T, m.order, c.stack, stack)
  {
    hide SameTop, Derives, TopOk;
  }

  /** Feeding a token is running the machine until the token is shifted or the run ends. */
  lemma {:induction false} FedIsRun(m: Meaning, T: Tables, finals: seq<seq<Action>>, limit: nat, stack: seq<Entry>, path: seq<nat>, consumed: seq<nat>, c: Machine.Conf, fuel: nat)
    returns (n: nat, c': Machine.Conf)
    requires Machine.RulesOk(RulesOf(m.g)) && Consistent(m) && TablesSound(m, T) && Mirrors(m, T, finals) && InStep(m, T, limit, stack, path, consumed, c)
    ensures stack != [] && FedMeans(m, T, finals, limit, c, fuel, Fed(T, limit, stack, c.input[0], fuel), n, c')
    decreases fuel
  {
    hide *;
    FedNone(m, T, finals, limit, stack, path, consumed, c);
    StepHeight(m, T, limit, stack, path, consumed, c);
    if fuel == 0 {
      n, c' := 0, c;
    } else {
      RoundIsTurn(m, T, finals, limit, stack, path, consumed, c);
      var path', r := ContinueRuns(m, T, limit, stack, path, consumed, c.input[0]);
      FedRound(T, limit, stack, c.input[0], fuel);
      var o, round := Machine.Turn(RulesOf(m.g), finals, c), RoundOf(T, limit, stack, c.input[0]);
      if round.0 == Continue {
        StillInStep(m, T, limit, stack, path, consumed, c, o, round, path', r);
        n, c' := FedIsRun(m, T, finals, limit, round.1, path', consumed, o.c, fuel - 1);
        FedMore(m, T, finals, limit, c, o.c, fuel - 1, Fed(T, limit, round.1, o.c.input[0], fuel - 1), n, c');
        n := n + 1;
      } else {
        n, c' := FedStops(m, T, finals, limit, c, fuel, round);
      }
    }
  }

  /** Machines are deterministic: an accepting run passes through every configuration the machine
      reaches. */
  lemma {:induction false} AcceptsLater(G: Machine.Rules, rows: seq<seq<Action>>, c: Machine.Conf, n: nat, limit: nat, c': Machine.Conf, k: nat, h: nat)
    requires Machine.RulesOk(G) && Machine.StepsWithin(G, rows, c, n, limit, c') && Machine.AcceptsWithin(G, rows, c, k, h)
    ensures n < k && Machine.AcceptsWithin(G, rows, c', k - n, h)
    decreases n
  {
    hide Machine.Turn;
    if n > 0 { AcceptsLater(G, rows, Machine.Turn(G, rows, c).c, n - 1, limit, c', k - 1, h); }
  }

  /** Where the machine accepts with enough fuel and stack, the call accepts or shifts. */
  lemma FedAccepts(m: Meaning, T: Tables, finals: seq<seq<Action>>, limit: nat, c: Machine.Conf, fuel: nat, fed: (Outcome, seq<Entry>), n: nat, c': Machine.Conf, k: nat)
    requires Machine.RulesOk(RulesOf(m.g)) && FedMeans(m, T, finals, limit, c, fuel, fed, n, c')
    requires Machine.AcceptsWithin(RulesOf(m.g), finals, c, k, limit) && limit > 1 && (k <= fuel || fed.0 != OutOfFuel)
    ensures fed.0 == Accepted || (fed.0 == Shifted && n < k && Machine.AcceptsWithin(RulesOf(m.g), finals, c', k - n, limit))
  {
    hide SameStack, RulesOf, Machine.Turn;
    AcceptsLater(RulesOf(m.g), finals, c, n, limit, c', k, limit);
    AcceptsNow(RulesOf(m.g), finals, c', k - n, limit);
  }

  lemma AcceptsNow(G: Machine.Rules, rows: seq<seq<Action>>, c: Machine.Conf, k: nat, h: nat)
    requires Machine.RulesOk(G) && Machine.AcceptsWithin(G, rows, c, k, h)
    ensures match Machine.Turn(G, rows, c)
      case Next(c') => |c'.stack| <= h
      case Accept => true
      case _ => false
  {
    hide Machine.Turn;
  }

  /** A call that accepts ends an accepting run. */
  lemma FedAccepted(m: Meaning, T: Tables, finals: seq<seq<Action>>, limit: nat, c: Machine.Conf, fuel: nat, fed: (Outcome, seq<Entry>), n: nat, c': Machine.Conf)
    requires Machine.RulesOk(RulesOf(m.g)) && FedMeans(m, T, finals, limit, c, fuel, fed, n, c') && fed.0 == Accepted
    ensures Machine.AcceptsWithin(RulesOf(m.g), finals, c, n + 1, limit)
  {
    hide SameStack, RulesOf, Machine.Turn;
    Completeness.LastHeight(RulesOf(m.g), finals, c, n, limit, c');
    Machine.StepsThenAccept(RulesOf(m.g), finals, c, n, limit, c', 1);
  }

  // ---- Feeding a whole input ----

  /** The machine started on the tokens and the end marker has come to `c`, with the tokens from
      number `i` on still to come. */
  ghost predicate Midway(g: Grammar, finals: seq<seq<Action>>, limit: nat, tokens: seq<nat>, i: nat, n: nat, c: Machine.Conf)
    requires Machine.RulesOk(RulesOf(g))
  {
    i <= |tokens| && c.input == tokens[i..] + [0] && Machine.StepsWithin(RulesOf(g), finals, Start(tokens + [0]), n, limit, c)
  }

  /** The machine accepts the tokens within so many turns and entries on the stack. */
  ghost predicate Accepts(g: Grammar, rows: seq<seq<Action>>, tokens: seq<nat>, n: nat, limit: nat)
    requires Machine.RulesOk(RulesOf(g))
  {
    Machine.AcceptsWithin(RulesOf(g), rows, Start(tokens + [0]), n, limit)
  }

  lemma FeedStart(m: Meaning, T: Tables, finals: seq<seq<Action>>, limit: nat, tokens: seq<nat>) returns (c: Machine.Conf)
    requires Machine.RulesOk(RulesOf(m.g)) && TablesSound(m, T) && limit > 0
    ensures Midway(m.g, finals, limit, tokens, 0, 0, c) && SameStack(T, m.order, c.stack, [BOTTOM])
  {
    c := Start(tokens + [0]);
    hide TokenSound, GotoSound;
    assert tokens[0..] == tokens;
  }

  lemma FeedInStep(m: Meaning, T: Tables, finals: seq<seq<Action>>, limit: nat, tokens: seq<nat>, i: nat, n: nat, c: Machine.Conf, stack: seq<Entry>, path: seq<nat>, consumed: seq<nat>)
    requires Machine.RulesOk(RulesOf(m.g)) && Midway(m.g, finals, limit, tokens, i, n, c) && SameStack(T, m.order, c.stack, stack)
    requires Running(m, T, stack, path, consumed) && 0 < m.g.nterminal && forall j :: 0 <= j < |tokens| ==> tokens[j] < m.g.nterminal
    ensures InStep(m, T, limit, stack, path, consumed, c) && c.input != [] && c.input[0] == if i < |tokens| then tokens[i] else 0
  {
    hide Running, SameTop, RulesOf;
    Completeness.LastHeight(RulesOf(m.g), finals, Start(tokens + [0]), n, limit, c);
  }

  /** One token further. */
  lemma FeedShifts(m: Meaning, T: Tables, finals: seq<seq<Action>>, limit: nat, tokens: seq<nat>, i: nat, n: nat, c: Machine.Conf, fuel: nat, fed: (Outcome, seq<Entry>), k: nat, c': Machine.Conf)
    requires Machine.RulesOk(RulesOf(m.g)) && Midway(m.g, finals, limit, tokens, i, n, c) && i < |tokens|
    requires FedMeans(m, T, finals, limit, c, fuel, fed, k, c') && fed.0 == Shifted
    ensures Midway(m.g, finals, limit, tokens, i + 1, n + k, c') && SameStack(T, m.order, c'.stack, fed.1)
  {
    hide RulesOf, SameStack, Machine.StepsWithin;
    assert (tokens[i..] + [0])[1..] == tokens[i + 1..] + [0];
    Machine.StepsCompose(RulesOf(m.g), finals, Start(tokens + [0]), n, limit, c, k, c');
  }

  lemma FeedAccepts(m: Meaning, T: Tables, finals: seq<seq<Action>>, limit: nat, tokens: seq<nat>, i: nat, n: nat, c: Machine.Conf, fuel: nat, fed: (Outcome, seq<Entry>), k: nat, c': Machine.Conf)
    requires Machine.RulesOk(RulesOf(m.g)) && Midway(m.g, finals, limit, tokens, i, n, c)
    requires FedMeans(m, T, finals, limit, c, fuel, fed, k, c') && fed.0 == Accepted
    ensures Accepts(m.g, finals, tokens, n + (k + 1), limit)
  {
    hide RulesOf, SameStack, FedMeans, Machine.StepsWithin, Machine.AcceptsWithin;
    FedAccepted(m, T, finals, limit, c, fuel, fed, k, c');
    Machine.StepsThenAccept(RulesOf(m.g), finals, Start(tokens + [0]), n, limit, c, k + 1);
  }

  /** Where the driver gives up, or shifts the end marker, the machine does not accept. */
  lemma FeedFails(m: Meaning, T: Tables, finals: seq<seq<Action>>, limit: nat, tokens: seq<nat>, i: nat, n: nat, c: Machine.Conf, fuel: nat, fed: (Outcome, seq<Entry>), k: nat, c': Machine.Conf)
    requires Machine.RulesOk(RulesOf(m.g)) && Midway(m.g, finals, limit, tokens, i, n, c) && limit > 1
    requires FedMeans(m, T, finals, limit, c, fuel, fed, k, c') && fed.0 != Accepted && (fed.0 == Shifted ==> i == |tokens|)
    ensures forall turns: nat :: turns <= fuel || fed.0 != OutOfFuel ==> !Accepts(m.g, finals, tokens, turns, limit)
  {
    hide RulesOf, SameStack, Machine.Turn, Machine.StepsWithin;
    forall turns: nat | turns <= fuel || fed.0 != OutOfFuel ensures !Accepts(m.g, finals, tokens, turns, limit) {
      if Accepts(m.g, finals, tokens, turns, limit) {
        AcceptsLater(RulesOf(m.g), finals, Start(tokens + [0]), n, limit, c, turns, limit);
        FedAccepts(m, T, finals, limit, c, fuel, fed, k, c', turns - n);
        CompressionRuns.NothingLeft(RulesOf(m.g), finals, c', turns - n - k, limit);
        assert false;
      }
    }
  }
}
