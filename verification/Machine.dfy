/** Runs of a parser that reads its moves from action lists, and what the two passes of
    `CompressTables` do to such runs. */
module Machine {
  import opened Wrappers
  import opened Actions
  import opened Compress

  /** What stands on the stack: a state, or a reduction that is already decided. */
  datatype Top = AtState(k: nat) | Pending(r: nat)

  datatype Conf = Conf(stack: seq<Top>, input: seq<nat>)

  /** The left-hand side and the length of each rule, the default symbol, and the number of terminals. */
  datatype Rules = Rules(lhs: seq<nat>, len: seq<nat>, d: nat, nterminal: nat)

  predicate RulesOk(G: Rules) {
    && |G.lhs| == |G.len| && G.nterminal <= G.d
    && forall r :: 0 <= r < |G.lhs| ==> G.nterminal <= G.lhs[r] < G.d
  }

  predicate InputOk(G: Rules, input: seq<nat>) { forall i :: 0 <= i < |input| ==> input[i] < G.nterminal }

  datatype Outcome = Next(c: Conf) | Accept | Error | Halt(c: Conf)

  /** The action on a nonterminal; there are no defaults here. */
  function Goto(aps: seq<Action>, a: nat): Option<Move> {
    if LiveOn(aps, a) == [] then None else Some(MoveOf(LiveOn(aps, a)[0]))
  }

  function Landed(below: seq<Top>, input: seq<nat>, move: Option<Move>): Outcome {
    match move
    case Some(Move(SHIFT, s)) => Next(Conf(below + [AtState(s)], input))
    case Some(Move(SHIFTREDUCE, r)) => Next(Conf(below + [Pending(r)], input))
    case Some(Move(ACCEPT, _)) => Accept
    case _ => Error
  }

  function ReduceBy(G: Rules, rows: seq<seq<Action>>, c: Conf, r: nat): Outcome
    requires RulesOk(G)
  {
    if r >= |G.lhs| || G.len[r] >= |c.stack| then Error
    else
      var below := c.stack[..|c.stack| - G.len[r]];
      match below[|below| - 1]
      case Pending(_) => Error
      case AtState(k) => if k >= |rows| then Error else Landed(below, c.input, Goto(rows[k], G.lhs[r]))
  }

  /** Carry out the move found for the next token. */
  function Obey(G: Rules, rows: seq<seq<Action>>, c: Conf, move: Option<Move>): Outcome
    requires RulesOk(G) && c.input != []
  {
    match move
    case Some(Move(SHIFT, s)) => Next(Conf(c.stack + [AtState(s)], c.input[1..]))
    case Some(Move(SHIFTREDUCE, r)) => Next(Conf(c.stack + [Pending(r)], c.input[1..]))
    case Some(Move(REDUCE, r)) => ReduceBy(G, rows, c, r)
    case _ => Error
  }

  /** One turn of the driver loop. */
  function Turn(G: Rules, rows: seq<seq<Action>>, c: Conf): Outcome
    requires RulesOk(G)
  {
    if c.input == [] || c.stack == [] then Halt(c)
    else
      match c.stack[|c.stack| - 1]
      case Pending(r) => ReduceBy(G, rows, c, r)
      case AtState(k) =>
        if k >= |rows| then Error
        else Obey(G, rows, c, Lookup(rows[k], c.input[0], G.d))
  }

  function Run(G: Rules, rows: seq<seq<Action>>, c: Conf, n: nat): Outcome
    requires RulesOk(G)
    decreases n
  {
    if n == 0 then Halt(c)
    else match Turn(G, rows, c)
      case Next(c') => Run(G, rows, c', n - 1)
      case o => o
  }

  // ---- First pass: defaults ----

  /** `after` moves as `before` does wherever `before` moves at all. */
  ghost predicate KeepsMoves(G: Rules, before: seq<Action>, after: seq<Action>) {
    && (forall t: nat :: t < G.nterminal && Lookup(before, t, G.d) != None ==> Lookup(after, t, G.d) == Lookup(before, t, G.d))
    && (forall a: nat :: G.nterminal <= a < G.d && Goto(before, a) != None ==> Goto(after, a) == Goto(before, a))
  }

  lemma TurnKept(G: Rules, before: seq<seq<Action>>, after: seq<seq<Action>>, c: Conf)
    requires RulesOk(G) && |before| == |after| && InputOk(G, c.input)
    requires forall k :: 0 <= k < |before| ==> KeepsMoves(G, before[k], after[k])
    requires Turn(G, before, c) != Error
    ensures Turn(G, after, c) == Turn(G, before, c)
  {
    hide Lookup, Goto;
  }

  lemma TurnInput(G: Rules, rows: seq<seq<Action>>, c: Conf)
    requires RulesOk(G) && InputOk(G, c.input) && Turn(G, rows, c).Next?
    ensures InputOk(G, Turn(G, rows, c).c.input)
  {
    hide Lookup, Goto;
  }

  /** A run that meets no syntax error is the same run after defaults have been chosen. */
  lemma {:induction false} DefaultsKeepRuns(G: Rules, before: seq<seq<Action>>, after: seq<seq<Action>>, c: Conf, n: nat)
    requires RulesOk(G) && |before| == |after| && InputOk(G, c.input)
    requires forall k :: 0 <= k < |before| ==> KeepsMoves(G, before[k], after[k])
    requires Run(G, before, c, n) != Error
    ensures Run(G, after, c, n) == Run(G, before, c, n)
    decreases n
  {
    hide Turn, KeepsMoves;
    if n > 0 {
      TurnKept(G, before, after, c);
      if Turn(G, before, c).Next? {
        TurnInput(G, before, c);
        DefaultsKeepRuns(G, before, after, Turn(G, before, c).c, n - 1);
      }
    }
  }

  // ---- Second pass: shift-reduce ----

  /** The auto-reduce states do nothing but reduce by their rule, which is not empty. */
  ghost predicate AutosOk(G: Rules, rows: seq<seq<Action>>, auto: map<nat, nat>)
    requires RulesOk(G)
  {
    forall s :: s in auto ==> s < |rows| && auto[s] < |G.lhs| && G.len[auto[s]] > 0 && OnlyReduces(G, rows[s], auto[s])
  }

  ghost predicate OnlyReduces(G: Rules, aps: seq<Action>, r: nat) {
    forall t: nat :: t < G.nterminal ==> Lookup(aps, t, G.d) == Some(Move(REDUCE, r))
  }

  /** Lists that hold no shift-reduce yet. */
  ghost predicate Unfused(rows: seq<seq<Action>>) {
    forall k, a :: 0 <= k < |rows| && a in rows[k] && Live(a) ==> a.kind != SHIFTREDUCE
  }

  function FuseTop(x: Top, auto: map<nat, nat>): Top {
    if x.AtState? && x.k in auto then Pending(auto[x.k]) else x
  }

  /** The fused machine's view of a configuration: an auto-reduce state on top is a pending reduce. */
  function FuseConf(c: Conf, auto: map<nat, nat>): Conf {
    if c.stack == [] then c
    else Conf(c.stack[..|c.stack| - 1] + [FuseTop(c.stack[|c.stack| - 1], auto)], c.input)
  }

  function FuseOutcome(o: Outcome, auto: map<nat, nat>): Outcome {
    match o
    case Next(c) => Next(FuseConf(c, auto))
    case Halt(c) => Halt(FuseConf(c, auto))
    case _ => o
  }

  function FuseRows(rows: seq<seq<Action>>, auto: map<nat, nat>): (r: seq<seq<Action>>)
    ensures |r| == |rows| && forall k :: 0 <= k < |rows| ==> r[k] == Fused(rows[k], auto)
  {
    seq(|rows|, k requires 0 <= k < |rows| => Fused(rows[k], auto))
  }

  /** Below the top there are states only, and no auto-reduce states. */
  predicate Clean(c: Conf, auto: map<nat, nat>) {
    && (forall i :: 0 <= i < |c.stack| - 1 ==> c.stack[i].AtState? && c.stack[i].k !in auto)
    && (c.stack != [] ==> c.stack[|c.stack| - 1].AtState?)
  }

  lemma FusedGoto(aps: seq<Action>, auto: map<nat, nat>, a: nat)
    ensures Goto(Fused(aps, auto), a) == match Goto(aps, a) { case None => None case Some(m) => Some(FusedMove(m, auto)) }
  {
    FusedLiveOn(aps, auto, a);
  }

  lemma NoShiftReduce(aps: seq<Action>, x: nat, d: nat)
    requires forall a :: a in aps && Live(a) ==> a.kind != SHIFTREDUCE
    ensures Lookup(aps, x, d).Some? ==> Lookup(aps, x, d).value.kind != SHIFTREDUCE
    ensures Goto(aps, x).Some? ==> Goto(aps, x).value.kind != SHIFTREDUCE
  {
    LiveOnMembers(aps, x);
    LiveOnMembers(aps, d);
    assert LiveOn(aps, x) != [] ==> LiveOn(aps, x)[0] in LiveOn(aps, x);
    assert LiveOn(aps, d) != [] ==> LiveOn(aps, d)[0] in LiveOn(aps, d);
  }

  lemma FusedLanding(below: seq<Top>, input: seq<nat>, move: Option<Move>, auto: map<nat, nat>)
    requires move.Some? ==> move.value.kind != SHIFTREDUCE
    requires forall i :: 0 <= i < |below| ==> below[i].AtState? && below[i].k !in auto
    ensures Landed(below, input, match move { case None => None case Some(m) => Some(FusedMove(m, auto)) }) == FuseOutcome(Landed(below, input, move), auto)
    ensures Landed(below, input, move).Next? ==> Clean(Landed(below, input, move).c, auto) && Landed(below, input, move).c.input == input
  {
  }

  /** Reducing from corresponding configurations lands in corresponding configurations. */
  lemma FusedReduce(G: Rules, rows: seq<seq<Action>>, auto: map<nat, nat>, c: Conf, r: nat)
    requires RulesOk(G) && Unfused(rows) && Clean(c, auto) && c.stack != []
    requires r < |G.lhs| && G.len[r] == 0 ==> c.stack[|c.stack| - 1].k !in auto
    ensures ReduceBy(G, FuseRows(rows, auto), FuseConf(c, auto), r) == FuseOutcome(ReduceBy(G, rows, c, r), auto)
    ensures ReduceBy(G, rows, c, r).Next? ==> Clean(ReduceBy(G, rows, c, r).c, auto) && ReduceBy(G, rows, c, r).c.input == c.input
  {
    hide Fused, Goto, Landed, FusedMove;
    if r < |G.lhs| && G.len[r] < |c.stack| {
      var n := |c.stack| - G.len[r];
      assert FuseConf(c, auto).stack[..n] == c.stack[..n];
      assert forall i :: 0 <= i < n ==> c.stack[i].AtState? && c.stack[i].k !in auto;
      var k := c.stack[n - 1].k;
      if k < |rows| {
        FusedGoto(rows[k], auto, G.lhs[r]);
        NoShiftReduce(rows[k], G.lhs[r], G.d);
        FusedLanding(c.stack[..n], c.input, Goto(rows[k], G.lhs[r]), auto);
      }
    }
  }

  /** One turn of the fused machine is one turn of the original machine. */
  lemma FusedTurn(G: Rules, rows: seq<seq<Action>>, auto: map<nat, nat>, c: Conf)
    requires RulesOk(G) && Unfused(rows) && AutosOk(G, rows, auto) && Clean(c, auto) && InputOk(G, c.input)
    ensures Turn(G, FuseRows(rows, auto), FuseConf(c, auto)) == FuseOutcome(Turn(G, rows, c), auto)
    ensures Turn(G, rows, c).Next? ==> Clean(Turn(G, rows, c).c, auto) && InputOk(G, Turn(G, rows, c).c.input)
  {
    if c.input != [] && c.stack != [] {
      var k := c.stack[|c.stack| - 1].k;
      hide Fused, Lookup, ReduceBy, Obey, Unfused;
      if k in auto {
        assert OnlyReduces(G, rows[k], auto[k]);
        FusedReduce(G, rows, auto, c, auto[k]);
        ObeyReduce(G, rows, c, auto[k]);
      } else if k < |rows| {
        FusedLookup(rows[k], auto, c.input[0], G.d);
        UnfusedRow(rows, k, c.input[0], G.d);
        FusedObey(G, rows, auto, c, Lookup(rows[k], c.input[0], G.d));
      }
    }
  }

  lemma UnfusedRow(rows: seq<seq<Action>>, k: nat, x: nat, d: nat)
    requires Unfused(rows) && k < |rows|
    ensures Lookup(rows[k], x, d).Some? ==> Lookup(rows[k], x, d).value.kind != SHIFTREDUCE
  {
    NoShiftReduce(rows[k], x, d);
  }

  lemma ObeyReduce(G: Rules, rows: seq<seq<Action>>, c: Conf, r: nat)
    requires RulesOk(G) && c.input != []
    ensures Obey(G, rows, c, Some(Move(REDUCE, r))) == ReduceBy(G, rows, c, r)
  {
  }

  lemma FusedObey(G: Rules, rows: seq<seq<Action>>, auto: map<nat, nat>, c: Conf, move: Option<Move>)
    requires RulesOk(G) && Unfused(rows) && Clean(c, auto) && c.input != [] && InputOk(G, c.input)
    requires c.stack != [] && c.stack[|c.stack| - 1].k !in auto
    requires move.Some? ==> move.value.kind != SHIFTREDUCE
    ensures FuseConf(c, auto) == c
    ensures Obey(G, FuseRows(rows, auto), c, match move { case None => None case Some(m) => Some(FusedMove(m, auto)) }) == FuseOutcome(Obey(G, rows, c, move), auto)
    ensures Obey(G, rows, c, move).Next? ==> Clean(Obey(G, rows, c, move).c, auto) && InputOk(G, Obey(G, rows, c, move).c.input)
  {
    assert FuseConf(c, auto) == c;
    if move.Some? && move.value.kind == REDUCE {
      hide Fused, ReduceBy, Obey, Unfused, FuseConf, Clean, InputOk;
      FusedReduce(G, rows, auto, c, move.value.arg);
      ObeyReduce(G, rows, c, move.value.arg);
      ObeyReduce(G, FuseRows(rows, auto), c, move.value.arg);
    } else {
      hide Fused, ReduceBy, Unfused;
    }
  }

  /** Shifting and reducing in one entry gives, turn by turn, the run that shifts into the
      auto-reduce state and takes its default reduce. */
  lemma {:induction false} FusionKeepsRuns(G: Rules, rows: seq<seq<Action>>, auto: map<nat, nat>, c: Conf, n: nat)
    requires RulesOk(G) && Unfused(rows) && AutosOk(G, rows, auto) && Clean(c, auto) && InputOk(G, c.input)
    ensures Run(G, FuseRows(rows, auto), FuseConf(c, auto), n) == FuseOutcome(Run(G, rows, c, n), auto)
    decreases n
  {
    hide Turn, AutosOk, Unfused, FuseConf;
    if n > 0 {
      FusedTurn(G, rows, auto, c);
      if Turn(G, rows, c).Next? {
        FusionKeepsRuns(G, rows, auto, Turn(G, rows, c).c, n - 1);
      }
    }
  }

  // ---- Runs that keep the stack small ----

  /** Exactly `n` turns lead from `c` to `e`, and the stack never has more than `h` entries. */
  ghost predicate StepsWithin(G: Rules, rows: seq<seq<Action>>, c: Conf, n: nat, h: nat, e: Conf)
    requires RulesOk(G)
    decreases n
  {
    |c.stack| <= h && if n == 0 then c == e else Turn(G, rows, c).Next? && StepsWithin(G, rows, Turn(G, rows, c).c, n - 1, h, e)
  }

  /** The run from `c` accepts in turn `n`, and the stack never has more than `h` entries. */
  ghost predicate AcceptsWithin(G: Rules, rows: seq<seq<Action>>, c: Conf, n: nat, h: nat)
    requires RulesOk(G)
    decreases n
  {
    && |c.stack| <= h && n > 0
    && match Turn(G, rows, c)
       case Next(c') => AcceptsWithin(G, rows, c', n - 1, h)
       case Accept => n == 1
       case _ => false
  }

  lemma {:induction false} StepsCompose(G: Rules, rows: seq<seq<Action>>, c: Conf, n: nat, h: nat, d: Conf, k: nat, e: Conf)
    requires RulesOk(G) && StepsWithin(G, rows, c, n, h, d) && StepsWithin(G, rows, d, k, h, e)
    ensures StepsWithin(G, rows, c, n + k, h, e)
    decreases n
  {
    hide Turn;
    if n > 0 { StepsCompose(G, rows, Turn(G, rows, c).c, n - 1, h, d, k, e); }
  }

  lemma OneStep(G: Rules, rows: seq<seq<Action>>, c: Conf, h: nat, e: Conf)
    requires RulesOk(G) && |c.stack| <= h && |e.stack| <= h && Turn(G, rows, c) == Next(e)
    ensures StepsWithin(G, rows, c, 1, h, e)
  {
    assert StepsWithin(G, rows, e, 0, h, e);
  }

  lemma {:induction false} StepsThenAccept(G: Rules, rows: seq<seq<Action>>, c: Conf, n: nat, h: nat, d: Conf, k: nat)
    requires RulesOk(G) && StepsWithin(G, rows, c, n, h, d) && AcceptsWithin(G, rows, d, k, h)
    ensures AcceptsWithin(G, rows, c, n + k, h)
    decreases n
  {
    hide Turn;
    if n > 0 { StepsThenAccept(G, rows, Turn(G, rows, c).c, n - 1, h, d, k); }
  }

  /** Defaults keep every accepting run, turn by turn. */
  lemma {:induction false} DefaultsKeepAccepting(G: Rules, before: seq<seq<Action>>, after: seq<seq<Action>>, c: Conf, n: nat, h: nat)
    requires RulesOk(G) && |before| == |after| && InputOk(G, c.input)
    requires forall k :: 0 <= k < |before| ==> KeepsMoves(G, before[k], after[k])
    requires AcceptsWithin(G, before, c, n, h)
    ensures AcceptsWithin(G, after, c, n, h)
    decreases n
  {
    hide Turn, KeepsMoves;
    TurnKept(G, before, after, c);
    if Turn(G, before, c).Next? {
      TurnInput(G, before, c);
      DefaultsKeepAccepting(G, before, after, Turn(G, before, c).c, n - 1, h);
    }
  }

  /** The fused machine accepts exactly as the machine it was made from. */
  lemma {:induction false} FusionKeepsAccepting(G: Rules, rows: seq<seq<Action>>, auto: map<nat, nat>, c: Conf, n: nat, h: nat)
    requires RulesOk(G) && Unfused(rows) && AutosOk(G, rows, auto) && Clean(c, auto) && InputOk(G, c.input)
    ensures AcceptsWithin(G, FuseRows(rows, auto), FuseConf(c, auto), n, h) <==> AcceptsWithin(G, rows, c, n, h)
    decreases n
  {
    FusedHeight(c, auto);
    FusedTurn(G, rows, auto, c);
    hide Turn, AutosOk, Unfused, FuseConf;
    if n > 0 && Turn(G, rows, c).Next? {
      FusionKeepsAccepting(G, rows, auto, Turn(G, rows, c).c, n - 1, h);
    }
  }

  lemma FusedHeight(c: Conf, auto: map<nat, nat>)
    ensures |FuseConf(c, auto).stack| == |c.stack|
  {
  }

  /** Defaults keep every run that meets no error. */
  lemma {:induction false} DefaultsKeepSteps(G: Rules, before: seq<seq<Action>>, after: seq<seq<Action>>, c: Conf, n: nat, h: nat, e: Conf)
    requires RulesOk(G) && |before| == |after| && InputOk(G, c.input)
    requires forall k :: 0 <= k < |before| ==> KeepsMoves(G, before[k], after[k])
    requires StepsWithin(G, before, c, n, h, e)
    ensures StepsWithin(G, after, c, n, h, e)
    decreases n
  {
    hide Turn, KeepsMoves;
    if n > 0 {
      TurnKept(G, before, after, c);
      TurnInput(G, before, c);
      DefaultsKeepSteps(G, before, after, Turn(G, before, c).c, n - 1, h, e);
    }
  }

  /** The fused machine takes the turns of the machine it was made from. */
  lemma {:induction false} FusionKeepsSteps(G: Rules, rows: seq<seq<Action>>, auto: map<nat, nat>, c: Conf, n: nat, h: nat, e: Conf)
    requires RulesOk(G) && Unfused(rows) && AutosOk(G, rows, auto) && Clean(c, auto) && InputOk(G, c.input)
    requires StepsWithin(G, rows, c, n, h, e)
    ensures StepsWithin(G, FuseRows(rows, auto), FuseConf(c, auto), n, h, FuseConf(e, auto))
    decreases n
  {
    FusedHeight(c, auto);
    hide Turn, AutosOk, Unfused, FuseConf;
    if n > 0 {
      FusedTurn(G, rows, auto, c);
      FusionKeepsSteps(G, rows, auto, Turn(G, rows, c).c, n - 1, h, e);
    }
  }
}
