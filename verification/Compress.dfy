/** `CompressTables`: the most frequent reduce of a state becomes its default, and shifts into
    states that can only reduce become shift-reduces. */
module Compress {
  import opened Wrappers
  import opened Actions
  import MergeSort

  /** What the driver is told to do. */
  datatype Move = Move(kind: Kind, arg: nat)

  function MoveOf(a: Action): Move { Move(a.kind, a.arg) }

  /** Table lookup: the action on `sp` if there is one, else the action on the default symbol `d`. */
  function Lookup(aps: seq<Action>, sp: nat, d: nat): Option<Move> {
    if LiveOn(aps, sp) != [] then Some(MoveOf(LiveOn(aps, sp)[0]))
    else if LiveOn(aps, d) != [] then Some(MoveOf(LiveOn(aps, d)[0]))
    else None
  }

  /** At most one live action per symbol: what conflict resolution guarantees. */
  ghost predicate Deterministic(aps: seq<Action>) {
    forall sp: nat :: |LiveOn(aps, sp)| <= 1
  }

  predicate IsReduceBy(a: Action, r: nat) { a.kind == REDUCE && a.arg == r }

  /** How many lookaheads reduce by rule `r`. */
  function Count(aps: seq<Action>, r: nat): nat {
    if aps == [] then 0 else Count(aps[1..], r) + (if IsReduceBy(aps[0], r) then 1 else 0)
  }

  // ---- Choosing the default ----

  /** The counting loop for one rule. */
  method CountFrom(aps: seq<Action>, i: nat, r: nat, best: Option<nat>) returns (n: nat)
    requires i < |aps| && IsReduceBy(aps[i], r) && best != Some(r)
    ensures n == Count(aps[i..], r)
  {
    n := 1;
    assert aps[i..][1..] == aps[i + 1..];
    for j := i + 1 to |aps|
      invariant Count(aps[i..], r) == n + Count(aps[j..], r)
    {
      assert aps[j..][0] == aps[j] && aps[j..][1..] == aps[j + 1..];
      if aps[j].kind == REDUCE && best != Some(aps[j].arg) && aps[j].arg == r { n := n + 1; }
    }
  }

  lemma {:induction false} CountSplit(aps: seq<Action>, i: nat, r: nat)
    requires i <= |aps|
    ensures Count(aps, r) == Count(aps[..i], r) + Count(aps[i..], r)
  {
    if i == 0 {
      assert aps[..0] == [] && aps[0..] == aps;
    } else {
      CountSplit(aps[1..], i - 1, r);
      assert aps[1..][..i - 1] == aps[..i][1..] && aps[1..][i - 1..] == aps[i..];
    }
  }

  lemma {:induction false} CountZero(aps: seq<Action>, r: nat)
    ensures Count(aps, r) == 0 <==> forall a :: a in aps ==> !IsReduceBy(a, r)
  {
    if aps != [] {
      CountZero(aps[1..], r);
      assert aps == [aps[0]] + aps[1..];
    }
  }

  /** The first loop: a rule that is not a start rule and reduces on the most lookaheads. */
  method PickDefault(aps: seq<Action>, starts: set<nat>) returns (best: Option<nat>)
    ensures best == None <==> forall a :: a in aps && a.kind == REDUCE ==> a.arg in starts
    ensures best.Some? ==> best.value !in starts && Count(aps, best.value) > 0
    ensures best.Some? ==> forall r :: r !in starts ==> Count(aps, r) <= Count(aps, best.value)
  {
    var nbest := 0;
    best := None;
    for i := 0 to |aps|
      invariant if best == None then nbest == 0 else best.value !in starts && nbest == Count(aps, best.value) > 0
      invariant forall r :: r !in starts && Count(aps[..i], r) > 0 ==> Count(aps, r) <= nbest
      invariant best == None ==> forall r :: r !in starts ==> Count(aps[..i], r) == 0
    {
      CountPrefix(aps, i);
      var a := aps[i];
      if a.kind == REDUCE && a.arg !in starts && best != Some(a.arg) {
        var n := CountFrom(aps, i, a.arg, best);
        CountSplit(aps, i, a.arg);
        if n > nbest { nbest, best := n, Some(a.arg); }
      }
    }
    assert aps[..|aps|] == aps;
    DefaultSummary(aps, starts, best);
  }

  lemma CountPrefix(aps: seq<Action>, i: nat)
    requires i < |aps|
    ensures forall r :: Count(aps[..i + 1], r) == Count(aps[..i], r) + (if IsReduceBy(aps[i], r) then 1 else 0)
    ensures forall r :: Count(aps[..i + 1], r) <= Count(aps, r)
  {
    forall r ensures Count(aps[..i + 1], r) == Count(aps[..i], r) + (if IsReduceBy(aps[i], r) then 1 else 0)
             ensures Count(aps[..i + 1], r) <= Count(aps, r)
    {
      CountSplit(aps[..i + 1], i, r);
      assert aps[..i + 1][..i] == aps[..i] && aps[..i + 1][i..] == [aps[i]];
      CountSplit(aps, i + 1, r);
    }
  }

  lemma DefaultSummary(aps: seq<Action>, starts: set<nat>, best: Option<nat>)
    requires best == None ==> forall r :: r !in starts ==> Count(aps, r) == 0
    requires best.Some? ==> best.value !in starts && Count(aps, best.value) > 0
    ensures best == None <==> forall a :: a in aps && a.kind == REDUCE ==> a.arg in starts
    ensures forall r :: Count(aps, r) >= 0
  {
    if best == None {
      forall a | a in aps && a.kind == REDUCE ensures a.arg in starts {
        CountZero(aps, a.arg);
        assert IsReduceBy(a, a.arg);
      }
    } else {
      CountZero(aps, best.value);
      var a :| a in aps && IsReduceBy(a, best.value);
    }
  }

  // ---- Installing the default ----

  function Retired(aps: seq<Action>, best: nat): (r: seq<Action>)
    ensures |r| == |aps|
  {
    if aps == [] then []
    else [if IsReduceBy(aps[0], best) then aps[0].(kind := NOT_USED) else aps[0]] + Retired(aps[1..], best)
  }

  /** The first reduce by `best` moves to the default symbol, the others are not used. */
  function Defaulted(aps: seq<Action>, best: nat, d: nat): (r: seq<Action>)
    ensures |r| == |aps|
  {
    if aps == [] then []
    else if IsReduceBy(aps[0], best) then [aps[0].(sp := d)] + Retired(aps[1..], best)
    else [aps[0]] + Defaulted(aps[1..], best, d)
  }

  function RetiredAction(a: Action, best: nat): Action {
    if IsReduceBy(a, best) then a.(kind := NOT_USED) else a
  }

  lemma DefaultedUnroll(aps: seq<Action>, best: nat, d: nat, i: nat)
    requires i < |aps|
    ensures Retired(aps[i..], best) == [RetiredAction(aps[i], best)] + Retired(aps[i + 1..], best)
    ensures Defaulted(aps[i..], best, d) ==
      if IsReduceBy(aps[i], best) then [aps[i].(sp := d)] + Retired(aps[i + 1..], best)
      else [aps[i]] + Defaulted(aps[i + 1..], best, d)
  {
    assert aps[i..][1..] == aps[i + 1..] && aps[i..][0] == aps[i];
  }

  lemma NothingLeft(best: nat, d: nat)
    ensures Retired([], best) == [] && Defaulted([], best, d) == []
  {
  }

  method Retire(aps: seq<Action>, from: nat, best: nat) returns (r: seq<Action>)
    requires from <= |aps|
    ensures r == Retired(aps[from..], best)
  {
    hide Retired, Defaulted, RetiredAction;
    r := [];
    NothingLeft(best, 0);
    for i := from to |aps|
      invariant Retired(aps[from..], best) == r + Retired(aps[i..], best)
    {
      DefaultedUnroll(aps, best, 0, i);
      r := r + [RetiredAction(aps[i], best)];
    }
  }

  /** Find the first reduce by `best`, move it to the default symbol, retire the rest. */
  method InstallDefault(aps: seq<Action>, best: nat, d: nat) returns (r: seq<Action>)
    ensures r == Defaulted(aps, best, d)
  {
    hide Retired, Defaulted, IsReduceBy;
    r := [];
    NothingLeft(best, d);
    var i := 0;
    assert aps[0..] == aps;
    while i < |aps| && !IsReduceBy(aps[i], best)
      invariant 0 <= i <= |aps| && Defaulted(aps, best, d) == r + Defaulted(aps[i..], best, d)
    {
      DefaultedUnroll(aps, best, d, i);
      r := r + [aps[i]];
      i := i + 1;
    }
    if i < |aps| {
      DefaultedUnroll(aps, best, d, i);
      var rest := Retire(aps, i + 1, best);
      r := r + ([aps[i].(sp := d)] + rest);
    }
  }

  lemma {:induction false} LiveOnRetired(aps: seq<Action>, best: nat, sp: nat)
    ensures LiveOn(Retired(aps, best), sp) == LiveOnBut(aps, best, sp)
  {
    if aps != [] { LiveOnRetired(aps[1..], best, sp); }
  }

  /** The live actions on `sp` other than reduces by `best`. */
  function LiveOnBut(aps: seq<Action>, best: nat, sp: nat): seq<Action> {
    if aps == [] then []
    else if Live(aps[0]) && aps[0].sp == sp && !IsReduceBy(aps[0], best) then [aps[0]] + LiveOnBut(aps[1..], best, sp)
    else LiveOnBut(aps[1..], best, sp)
  }

  lemma {:induction false} LiveOnDefaulted(aps: seq<Action>, best: nat, d: nat, sp: nat)
    requires sp != d
    ensures LiveOn(Defaulted(aps, best, d), sp) == LiveOnBut(aps, best, sp)
  {
    if aps != [] {
      if IsReduceBy(aps[0], best) {
        LiveOnRetired(aps[1..], best, sp);
      } else {
        LiveOnDefaulted(aps[1..], best, d, sp);
      }
    }
  }

  lemma {:induction false} DefaultEntry(aps: seq<Action>, best: nat, d: nat)
    requires LiveOn(aps, d) == []
    ensures Count(aps, best) == 0 ==> LiveOn(Defaulted(aps, best, d), d) == []
    ensures Count(aps, best) > 0 ==> |LiveOn(Defaulted(aps, best, d), d)| == 1 && IsReduceBy(LiveOn(Defaulted(aps, best, d), d)[0], best)
  {
    if aps != [] {
      if IsReduceBy(aps[0], best) {
        LiveOnRetired(aps[1..], best, d);
        ButNone(aps[1..], best, d);
      } else {
        DefaultEntry(aps[1..], best, d);
      }
    }
  }

  lemma {:induction false} ButNone(aps: seq<Action>, best: nat, sp: nat)
    ensures |LiveOnBut(aps, best, sp)| <= |LiveOn(aps, sp)|
    ensures LiveOn(aps, sp) == [] ==> LiveOnBut(aps, best, sp) == []
    ensures |LiveOn(aps, sp)| == 1 ==>
      LiveOnBut(aps, best, sp) == if IsReduceBy(LiveOn(aps, sp)[0], best) then [] else LiveOn(aps, sp)
  {
    if aps != [] { ButNone(aps[1..], best, sp); }
  }

  /** Sorting again does not change what a deterministic list says. */
  lemma LookupSorted(aps: seq<Action>, bs: seq<Action>, sp: nat)
    requires multiset(aps) == multiset(bs) && |LiveOn(aps, sp)| <= 1
    ensures LiveOn(bs, sp) == LiveOn(aps, sp)
  {
    LiveOnMultiset(aps, sp);
    LiveOnMultiset(bs, sp);
    SmallSame(LiveOn(aps, sp), LiveOn(bs, sp));
  }

  lemma SmallSame(x: seq<Action>, y: seq<Action>)
    requires |x| <= 1 && forall a :: multiset(x)[a] == multiset(y)[a]
    ensures x == y
  {
    assert multiset(x) == multiset(y);
    assert |multiset(x)| == |x| && |multiset(y)| == |y|;
    if |x| == 1 {
      assert x == [x[0]] && y == [y[0]];
      assert y[0] in multiset(y);
    }
  }

  lemma {:induction false} LiveOnMultiset(aps: seq<Action>, sp: nat)
    ensures forall a :: multiset(LiveOn(aps, sp))[a] == if Live(a) && a.sp == sp then multiset(aps)[a] else 0
  {
    if aps != [] {
      LiveOnMultiset(aps[1..], sp);
      assert aps == [aps[0]] + aps[1..];
    }
  }

  /** Compression preserves moves: whatever a lookahead did before, it does after, explicitly or
      by default; and a lookahead that had no action gets none, or the default reduce. */
  lemma CompressionPreservesMoves(aps: seq<Action>, bs: seq<Action>, best: nat, d: nat, sp: nat)
    requires Deterministic(aps) && LiveOn(aps, d) == [] && sp != d && Count(aps, best) > 0
    requires multiset(bs) == multiset(Defaulted(aps, best, d))
    ensures Lookup(bs, sp, d) == if LiveOn(aps, sp) != [] then Lookup(aps, sp, d) else Some(Move(REDUCE, best))
    ensures |LiveOn(bs, sp)| <= 1 && |LiveOn(bs, d)| == 1 && MoveOf(LiveOn(bs, d)[0]) == Move(REDUCE, best)
  {
    LiveOnDefaulted(aps, best, d, sp);
    DefaultEntry(aps, best, d);
    ButNone(aps, best, sp);
    LookupSorted(Defaulted(aps, best, d), bs, sp);
    LookupSorted(Defaulted(aps, best, d), bs, d);
  }

  // ---- One state ----

  /** The last loop: nothing but the default reduce is left. */
  method OnlyDefault(aps: seq<Action>, best: nat) returns (auto: bool)
    ensures auto <==> forall a :: a in aps ==> a.kind != SHIFT && (a.kind == REDUCE ==> a.arg == best)
  {
    for i := 0 to |aps|
      invariant forall a :: a in aps[..i] ==> a.kind != SHIFT && (a.kind == REDUCE ==> a.arg == best)
    {
      assert aps[..i + 1] == aps[..i] + [aps[i]];
      if aps[i].kind == SHIFT || (aps[i].kind == REDUCE && aps[i].arg != best) {
        return false;
      }
    }
    assert aps[..|aps|] == aps;
    return true;
  }

  /** The default is a most frequent reduce that is no start rule, and is missing only if there is none. */
  ghost predicate DefaultChosen(aps: seq<Action>, starts: set<nat>, dflt: Option<nat>) {
    match dflt
    case None => forall a :: a in aps && a.kind == REDUCE ==> a.arg in starts
    case Some(best) => best !in starts && Count(aps, best) > 0 && forall r :: r !in starts ==> Count(aps, r) <= Count(aps, best)
  }

  /** The default symbol carries the default reduce and nothing else. */
  ghost predicate LiveOnDefault(aps: seq<Action>, d: nat, dflt: Option<nat>) {
    if dflt == None then LiveOn(aps, d) == [] else |LiveOn(aps, d)| == 1 && MoveOf(LiveOn(aps, d)[0]) == Move(REDUCE, dflt.value)
  }

  /** A state that does nothing but reduce by one rule. */
  ghost predicate OnlyReduce(aps: seq<Action>, best: nat) {
    forall a :: a in aps ==> a.kind != SHIFT && (a.kind == REDUCE ==> a.arg == best)
  }

  lemma {:induction false} RetiredOnly(aps: seq<Action>, best: nat)
    ensures OnlyReduce(Retired(aps, best), best) <==> OnlyReduce(aps, best)
  {
    if aps != [] {
      RetiredOnly(aps[1..], best);
      OnlyOne(aps, best);
      OnlyOne(Retired(aps, best), best);
    }
  }

  lemma OnlyOne(aps: seq<Action>, best: nat)
    requires aps != []
    ensures OnlyReduce(aps, best) <==> aps[0].kind != SHIFT && (aps[0].kind == REDUCE ==> aps[0].arg == best) && OnlyReduce(aps[1..], best)
  {
    assert aps == [aps[0]] + aps[1..];
  }

  lemma {:induction false} DefaultedOnly(aps: seq<Action>, best: nat, d: nat)
    ensures OnlyReduce(Defaulted(aps, best, d), best) <==> OnlyReduce(aps, best)
  {
    if aps != [] {
      OnlyOne(aps, best);
      OnlyOne(Defaulted(aps, best, d), best);
      if IsReduceBy(aps[0], best) { RetiredOnly(aps[1..], best); } else { DefaultedOnly(aps[1..], best, d); }
    }
  }

  lemma SortedOnly(aps: seq<Action>, bs: seq<Action>, best: nat)
    requires multiset(aps) == multiset(bs)
    ensures OnlyReduce(aps, best) <==> OnlyReduce(bs, best)
  {
    MergeSort.RearrangedElements(aps, bs);
  }

  datatype Compressed = Compressed(aps: seq<Action>, dflt: Option<nat>, auto: bool)

  /** The first pass of `CompressTables`, for one state. */
  method CompressState(aps: seq<Action>, starts: set<nat>, d: nat) returns (r: Compressed)
    requires Deterministic(aps) && LiveOn(aps, d) == []
    ensures r.dflt == None ==> r.aps == aps && !r.auto
    ensures r.dflt.Some? ==> r.dflt.value !in starts && Count(aps, r.dflt.value) > 0
    ensures r.dflt.Some? ==> multiset(r.aps) == multiset(Defaulted(aps, r.dflt.value, d))
    ensures DefaultChosen(aps, starts, r.dflt) && LiveOnDefault(r.aps, d, r.dflt)
    ensures r.auto <==> r.dflt.Some? && OnlyReduce(aps, r.dflt.value)
    ensures r.dflt.Some? ==> (OnlyReduce(r.aps, r.dflt.value) <==> OnlyReduce(aps, r.dflt.value))
    ensures forall sp: nat :: sp != d && LiveOn(aps, sp) != [] ==> Lookup(r.aps, sp, d) == Lookup(aps, sp, d)
    ensures forall sp: nat :: sp != d && LiveOn(aps, sp) == [] ==>
      Lookup(r.aps, sp, d) == if r.dflt == None then None else Some(Move(REDUCE, r.dflt.value))
    ensures Deterministic(r.aps)
  {
    var best := PickDefault(aps, starts);
    if best == None {
      return Compressed(aps, None, false);
    }
    var defaulted := InstallDefault(aps, best.value, d);
    ActionCmpOrders();
    var sorted := MergeSort.Msort(ActionCmp, defaulted);
    var auto := OnlyDefault(sorted, best.value);
    forall sp: nat | sp != d
      ensures Lookup(sorted, sp, d) == if LiveOn(aps, sp) != [] then Lookup(aps, sp, d) else Some(Move(REDUCE, best.value))
      ensures |LiveOn(sorted, sp)| <= 1 && |LiveOn(sorted, d)| == 1
    {
      CompressionPreservesMoves(aps, sorted, best.value, d, sp);
    }
    CompressionPreservesMoves(aps, sorted, best.value, d, d + 1);
    DefaultedOnly(aps, best.value, d);
    SortedOnly(defaulted, sorted, best.value);
    return Compressed(sorted, best, auto);
  }

  // ---- Shift-reduce ----

  /** The second pass: `auto[s]` is the rule of auto-reduce state `s`. */
  function Fused(aps: seq<Action>, auto: map<nat, nat>): (r: seq<Action>)
    ensures |r| == |aps|
  {
    if aps == [] then [] else [FusedAction(aps[0], auto)] + Fused(aps[1..], auto)
  }

  function FusedAction(a: Action, auto: map<nat, nat>): Action {
    if a.kind == SHIFT && a.arg in auto then Action(a.sp, SHIFTREDUCE, auto[a.arg], a.id) else a
  }

  function FusedMove(m: Move, auto: map<nat, nat>): Move {
    if m.kind == SHIFT && m.arg in auto then Move(SHIFTREDUCE, auto[m.arg]) else m
  }

  lemma {:induction false} FusedLiveOn(aps: seq<Action>, auto: map<nat, nat>, sp: nat)
    ensures LiveOn(Fused(aps, auto), sp) == Fused(LiveOn(aps, sp), auto)
  {
    if aps != [] {
      FusedLiveOn(aps[1..], auto, sp);
    }
  }

  /** Fusing changes each table entry on its own: shifts into auto-reduce states, nothing else. */
  lemma FusedLookup(aps: seq<Action>, auto: map<nat, nat>, sp: nat, d: nat)
    ensures Lookup(Fused(aps, auto), sp, d) ==
      match Lookup(aps, sp, d) { case None => None case Some(m) => Some(FusedMove(m, auto)) }
  {
    FusedLiveOn(aps, auto, sp);
    FusedLiveOn(aps, auto, d);
  }

  method FuseShifts(aps: seq<Action>, auto: map<nat, nat>) returns (r: seq<Action>)
    ensures r == Fused(aps, auto)
  {
    r := [];
    for i := 0 to |aps|
      invariant Fused(aps, auto) == r + Fused(aps[i..], auto)
    {
      assert aps[i..][0] == aps[i] && aps[i..][1..] == aps[i + 1..];
      r := r + [FusedAction(aps[i], auto)];
    }
  }
}
