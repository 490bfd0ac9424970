/** What `%left`, `%right` and the order of rules decide: conflict resolution on one lookahead, in
    terms of the declarations. */
module Precedence {
  import opened Grammars
  import opened Actions

  // ---- The precedence symbol of a rule ----

  /** The numbers of the symbols that can lend a rule their precedence, from left to right. */
  function Lenders(rhs: seq<Symbol>): seq<nat> {
    if rhs == [] then []
    else (match rhs[0] case Terminal(t) => [t] case Nonterminal(a) => [a] case MultiTerminal(ts) => ts) + Lenders(rhs[1..])
  }

  /** `s` is the leftmost of the symbols that has a precedence. */
  predicate Leftmost(prec: map<nat, nat>, xs: seq<nat>, s: nat) {
    exists i :: 0 <= i < |xs| && xs[i] == s && s in prec && forall j :: 0 <= j < i ==> xs[j] !in prec
  }

  predicate NonePrecedes(prec: map<nat, nat>, xs: seq<nat>) { forall i :: 0 <= i < |xs| ==> xs[i] !in prec }

  /** The precedence symbol of each rule: the one given in brackets, else the leftmost with a precedence, else none. */
  ghost predicate RuleSymbols(g: Grammar, prec: map<nat, nat>, given: map<nat, nat>, precsym: map<nat, nat>, n: nat) {
    forall r: nat :: r < n && r < |g.rules| ==>
      if r in given then r in precsym && precsym[r] == given[r]
      else if r in precsym then Leftmost(prec, Lenders(g.rules[r].rhs), precsym[r])
      else NonePrecedes(prec, Lenders(g.rules[r].rhs))
  }

  lemma {:induction false} LendersMore(a: seq<Symbol>, x: Symbol)
    ensures Lenders(a + [x]) == Lenders(a) + Lenders([x])
  {
    if a == [] {
      assert a + [x] == [x];
    } else {
      assert (a + [x])[1..] == a[1..] + [x];
      LendersMore(a[1..], x);
    }
  }

  lemma LeftmostLater(prec: map<nat, nat>, a: seq<nat>, b: seq<nat>, s: nat)
    ensures NonePrecedes(prec, a) && Leftmost(prec, b, s) ==> Leftmost(prec, a + b, s)
    ensures Leftmost(prec, a, s) ==> Leftmost(prec, a + b, s)
    ensures NonePrecedes(prec, a) && NonePrecedes(prec, b) ==> NonePrecedes(prec, a + b)
  {
    if NonePrecedes(prec, a) && Leftmost(prec, b, s) {
      var i :| 0 <= i < |b| && b[i] == s && s in prec && forall j :: 0 <= j < i ==> b[j] !in prec;
      assert (a + b)[|a| + i] == s;
      assert forall j :: 0 <= j < |a| + i ==> (a + b)[j] !in prec;
    }
    if Leftmost(prec, a, s) {
      var i :| 0 <= i < |a| && a[i] == s && s in prec && forall j :: 0 <= j < i ==> a[j] !in prec;
      assert (a + b)[i] == s && forall j :: 0 <= j < i ==> (a + b)[j] == a[j];
    }
  }

  /** The inner loop over a token class, or the test of a single symbol. */
  method LendOne(x: Symbol, prec: map<nat, nat>) returns (found: bool, s: nat)
    ensures if found then Leftmost(prec, Lenders([x]), s) else NonePrecedes(prec, Lenders([x]))
  {
    var xs := match x case Terminal(t) => [t] case Nonterminal(a) => [a] case MultiTerminal(ts) => ts;
    assert Lenders([x]) == xs + [] == xs;
    for j := 0 to |xs|
      invariant forall i :: 0 <= i < j ==> xs[i] !in prec
    {
      if xs[j] in prec { return true, xs[j]; }
    }
    return false, 0;
  }

  /** `FindRulePrecedences` */
  method FindRulePrecedences(g: Grammar, prec: map<nat, nat>, given: map<nat, nat>) returns (precsym: map<nat, nat>)
    ensures RuleSymbols(g, prec, given, precsym, |g.rules|)
    ensures forall r :: r in precsym ==> r in given || r < |g.rules|
  {
    precsym := given;
    for r := 0 to |g.rules|
      invariant RuleSymbols(g, prec, given, precsym, r)
      invariant forall k :: k in given ==> k in precsym && precsym[k] == given[k]
      invariant forall k :: k in precsym ==> k in given || k < r
    {
      if r !in precsym {
        var rhs := g.rules[r].rhs;
        var i, found, s := 0, false, 0;
        hide Lenders, Leftmost, NonePrecedes;
        NoLenders(prec);
        while i < |rhs| && !found
          invariant 0 <= i <= |rhs|
          invariant if found then Leftmost(prec, Lenders(rhs[..i]), s) else NonePrecedes(prec, Lenders(rhs[..i]))
        {
          found, s := LendOne(rhs[i], prec);
          assert rhs[..i + 1] == rhs[..i] + [rhs[i]];
          LendersMore(rhs[..i], rhs[i]);
          LeftmostLater(prec, Lenders(rhs[..i]), Lenders([rhs[i]]), s);
          i := i + 1;
        }
        AllLenders(prec, rhs, i, s, found);
        if found { precsym := precsym[r := s]; }
      }
    }
  }

  lemma NoLenders(prec: map<nat, nat>)
    ensures NonePrecedes(prec, Lenders([]))
  {
  }

  /** The symbols that were not looked at do not matter. */
  lemma AllLenders(prec: map<nat, nat>, rhs: seq<Symbol>, i: nat, s: nat, found: bool)
    requires i <= |rhs| && (!found ==> i == |rhs|)
    requires if found then Leftmost(prec, Lenders(rhs[..i]), s) else NonePrecedes(prec, Lenders(rhs[..i]))
    ensures if found then Leftmost(prec, Lenders(rhs), s) else NonePrecedes(prec, Lenders(rhs))
  {
    LendersSplit(rhs, i);
    LeftmostLater(prec, Lenders(rhs[..i]), Lenders(rhs[i..]), s);
    if i == |rhs| { assert rhs[..i] == rhs; }
  }

  lemma {:induction false} LendersSplit(rhs: seq<Symbol>, i: nat)
    requires i <= |rhs|
    ensures Lenders(rhs) == Lenders(rhs[..i]) + Lenders(rhs[i..])
    decreases i
  {
    if i > 0 {
      LendersSplit(rhs[1..], i - 1);
      assert rhs[..i][1..] == rhs[1..][..i - 1] && rhs[1..][i - 1..] == rhs[i..];
    }
  }

  // ---- What precedence decides between two actions ----

  /** Not enough is declared to choose between shifting `t` and reducing by `r`. */
  predicate Undeclared(p: Precedences, t: nat, r: nat) {
    t !in p.prec || r !in p.precsym || p.precsym[r] !in p.prec
  }

  /** The token's precedence is greater, or the same and it is right associative; or nothing is declared. */
  predicate ShiftStays(p: Precedences, t: nat, r: nat) {
    || Undeclared(p, t, r)
    || p.prec[t] > p.prec[p.precsym[r]]
    || (p.prec[t] == p.prec[p.precsym[r]] && t in p.assoc && p.assoc[t] == RIGHT)
  }

  /** Two rules that precedence does not tell apart. */
  predicate Level(p: Precedences, r1: nat, r2: nat) {
    || r1 !in p.precsym || p.precsym[r1] !in p.prec || r2 !in p.precsym || p.precsym[r2] !in p.prec
    || p.prec[p.precsym[r1]] == p.prec[p.precsym[r2]]
  }

  predicate Is(a: Action, t: nat, kind: Kind, arg: nat) { a.sp == t && a.kind == kind && a.arg == arg }

  /** Shifts to `s`, then reduces by `r`, all on token `t`. */
  predicate ShiftsThenReduces(cs: seq<Action>, t: nat, s: nat, r: nat) {
    && (forall i :: 0 <= i < |cs| ==> Is(cs[i], t, SHIFT, s) || Is(cs[i], t, REDUCE, r))
    && (forall i, j :: 0 <= i < j < |cs| && cs[j].kind == SHIFT ==> cs[i].kind == SHIFT)
  }

  predicate ReducesInOrder(cs: seq<Action>, t: nat, r1: nat, r2: nat) {
    && (forall i :: 0 <= i < |cs| ==> Is(cs[i], t, REDUCE, r1) || Is(cs[i], t, REDUCE, r2))
    && (forall i, j :: 0 <= i < j < |cs| && cs[j].arg == r1 ==> cs[i].arg == r1)
  }

  lemma {:induction false} ShiftChampion(p: Precedences, cs: seq<Action>, t: nat, s: nat, r: nat)
    requires cs != [] && NoNonassoc(p) && ShiftsThenReduces(cs, t, s, r)
    ensures var a := Champion(p, cs);
      if cs[0].kind == REDUCE || (cs[|cs| - 1].kind == REDUCE && !ShiftStays(p, t, r)) then Is(a, t, REDUCE, r) else Is(a, t, SHIFT, s)
    decreases |cs|
  {
    if |cs| > 1 {
      var w := Winner(p, cs[0], cs[1]);
      assert w == cs[0] || w == cs[1];
      var rest := [w] + cs[2..];
      assert forall i :: 1 <= i < |rest| ==> rest[i] == cs[i + 1];
      ShiftChampion(p, rest, t, s, r);
    }
  }

  lemma {:induction false} ReduceChampion(p: Precedences, cs: seq<Action>, t: nat, r1: nat, r2: nat)
    requires cs != [] && r1 != r2 && ReducesInOrder(cs, t, r1, r2)
    ensures var a := Champion(p, cs);
      if cs[0].arg == r2 || (cs[|cs| - 1].arg == r2 && !Level(p, r1, r2) && p.prec[p.precsym[r1]] < p.prec[p.precsym[r2]])
      then Is(a, t, REDUCE, r2) else Is(a, t, REDUCE, r1)
    decreases |cs|
  {
    if |cs| > 1 {
      var w := Winner(p, cs[0], cs[1]);
      var rest := [w] + cs[2..];
      assert forall i :: 1 <= i < |rest| ==> rest[i] == cs[i + 1];
      ReduceChampion(p, rest, t, r1, r2);
    }
  }

  // ---- The pass on one lookahead ----

  /** All actions on a lookahead, live or not. */
  function OnSymbol(aps: seq<Action>, sp: nat): seq<Action> {
    if aps == [] then [] else (if aps[0].sp == sp then [aps[0]] else []) + OnSymbol(aps[1..], sp)
  }

  lemma {:induction false} OnMembers(aps: seq<Action>, sp: nat)
    ensures forall a :: a in OnSymbol(aps, sp) <==> a in aps && a.sp == sp
  {
    if aps != [] {
      OnMembers(aps[1..], sp);
      assert aps == [aps[0]] + aps[1..];
    }
  }

  lemma {:induction false} NoneOn(aps: seq<Action>, sp: nat)
    requires forall i :: 0 <= i < |aps| ==> aps[i].sp != sp
    ensures OnSymbol(aps, sp) == []
  {
    if aps != [] { NoneOn(aps[1..], sp); }
  }

  /** The inner loop sees the actions on its own lookahead only. */
  lemma {:induction false} DefendOn(p: Precedences, x: Action, rest: seq<Action>, sp: nat)
    requires Grouped([x] + rest)
    ensures sp != x.sp ==> OnSymbol(Defend(p, x, rest).1, sp) == OnSymbol(rest, sp)
    ensures sp == x.sp ==> var (x', rest', e) := Defend(p, x, rest); Defend(p, x, OnSymbol(rest, sp)) == (x', OnSymbol(rest', sp), e)
    decreases |rest|
  {
    if rest == [] || rest[0].sp != x.sp {
      NextGroup(x, rest);
      if sp == x.sp { NoneOn(rest, sp); }
    } else {
      var y, tail := rest[0], rest[1..];
      assert rest == [y] + tail;
      var (x1, y1, e1) := Resolve(p, x, y);
      ResolveKeeps(p, x, y);
      GroupedTail(x, y, tail, x1);
      DefendOn(p, x1, tail, sp);
      var r := Defend(p, x1, tail).1;
      assert ([y1] + r)[1..] == r;
      if sp == x.sp { assert OnSymbol(rest, sp) == [y] + OnSymbol(tail, sp) && ([y] + OnSymbol(tail, sp))[1..] == OnSymbol(tail, sp); }
    }
  }

  lemma GroupedTail(x: Action, y: Action, tail: seq<Action>, x1: Action)
    requires Grouped([x] + ([y] + tail)) && x1.sp == x.sp
    ensures Grouped([x1] + tail)
  {
    var a, b := [x] + ([y] + tail), [x1] + tail;
    assert a[0] == x && forall i :: 1 <= i < |b| ==> b[i] == a[i + 1];
  }

  /** What the pass does on a lookahead depends on the actions on it alone. */
  lemma {:induction false} PassOnSymbol(p: Precedences, aps: seq<Action>, sp: nat)
    requires NoNonassoc(p) && Grouped(aps)
    ensures OnSymbol(Pass(p, aps).0, sp) == Pass(p, OnSymbol(aps, sp)).0
    decreases |aps|
  {
    if aps != [] {
      var x, tail := aps[0], aps[1..];
      var (x', rest, _) := Defend(p, x, tail);
      assert aps == [x] + tail;
      DefendWeaker(p, x, tail);
      WeakerCons(x, tail, x', rest);
      GroupedRest(x, tail, x', rest);
      DefendOn(p, x, tail, sp);
      PassOnSymbol(p, rest, sp);
      var all := [x'] + Pass(p, rest).0;
      assert all == Pass(p, aps).0 && all[0] == x' && x'.sp == x.sp && all[1..] == Pass(p, rest).0;
      assert OnSymbol(all, sp) == (if x.sp == sp then [x'] else []) + OnSymbol(Pass(p, rest).0, sp);
      if sp == x.sp {
        var on := OnSymbol(aps, sp);
        assert on == [x] + OnSymbol(tail, sp) && on[0] == x && on[1..] == OnSymbol(tail, sp);
        assert Pass(p, on).0 == [x'] + Pass(p, OnSymbol(rest, sp)).0;
      } else {
        assert OnSymbol(aps, sp) == [] + OnSymbol(tail, sp) == OnSymbol(tail, sp);
      }
    }
  }

  lemma GroupedRest(x: Action, tail: seq<Action>, x': Action, rest: seq<Action>)
    requires Grouped([x] + tail) && Weaker([x] + tail, [x'] + rest)
    ensures Grouped(rest)
  {
    var a, b := [x] + tail, [x'] + rest;
    assert forall i :: 0 <= i < |a| ==> b[i].sp == a[i].sp;
    assert forall i :: 0 <= i < |rest| ==> rest[i] == b[i + 1];
  }

  /** How many actions on a lookahead are marked as conflicts. */
  function ConflictsOn(aps: seq<Action>, sp: nat): nat { Conflicts(OnSymbol(aps, sp)) }

  lemma TwoOn(p: Precedences, a: Action, b: Action)
    requires a.sp == b.sp
    ensures Pass(p, [a, b]).0 == [Resolve(p, a, b).0, Resolve(p, a, b).1]
    ensures Conflicts(Pass(p, [a, b]).0) == (if IsConflict(Resolve(p, a, b).0) then 1 else 0) + (if IsConflict(Resolve(p, a, b).1) then 1 else 0)
  {
    var (x, y, e) := Resolve(p, a, b);
    ResolveKeeps(p, a, b);
    var ab := [a, b];
    assert ab[0] == a && ab[1..] == [b] && [b][1..] == [];
    assert Defend(p, a, [b]) == (x, [y] + [], e + 0);
    assert [y] + [] == [y] && [y][1..] == [];
    assert Pass(p, [y]).0 == [y] + Pass(p, []).0 == [y];
    assert Pass(p, ab).0 == [x] + [y] == [x, y];
    assert [x, y][1..] == [y] && [y][1..] == [];
    assert Conflicts([]) == 0 && Conflicts([y]) == (if IsConflict(y) then 1 else 0);
    assert Conflicts([x, y]) == Conflicts([y]) + (if IsConflict(x) then 1 else 0);
  }

  // ---- When nothing is reported ----

  /** The declarations choose between the two actions. */
  predicate Decided(p: Precedences, x: Action, y: Action) {
    match (x.kind, y.kind)
    case (SHIFT, REDUCE) => !Undeclared(p, x.sp, y.arg)
    case (REDUCE, REDUCE) => !Level(p, x.arg, y.arg)
    case _ => false
  }

  predicate AllDecided(p: Precedences, aps: seq<Action>) {
    forall i, j :: 0 <= i < j < |aps| && aps[i].sp == aps[j].sp && Live(aps[i]) && Live(aps[j]) ==> Decided(p, aps[i], aps[j])
  }

  lemma {:induction false} DefendQuiet(p: Precedences, x: Action, rest: seq<Action>)
    requires NoNonassoc(p) && forall j :: 0 <= j < |rest| && rest[j].sp == x.sp && Live(x) && Live(rest[j]) ==> Decided(p, x, rest[j])
    ensures Defend(p, x, rest).2 == 0
    decreases |rest|
  {
    if rest != [] && rest[0].sp == x.sp {
      if !Live(x) {
        DefendDead(p, x, rest);
      } else {
        var (x1, y1, e1) := Resolve(p, x, rest[0]);
        ResolveKeeps(p, x, rest[0]);
        assert Live(rest[0]) ==> Decided(p, x, rest[0]);
        assert e1 == 0 && (x1 == x || !Live(x1));
        DefendQuiet(p, x1, rest[1..]);
      }
    }
  }

  lemma WeakerDecided(p: Precedences, a: seq<Action>, b: seq<Action>)
    requires Weaker(a, b) && AllDecided(p, a)
    ensures AllDecided(p, b)
  {
    assert forall i :: 0 <= i < |a| ==> b[i].sp == a[i].sp && (Live(b[i]) ==> b[i] == a[i]);
  }

  /** Where every two actions on a lookahead are decided, no conflict is counted. */
  lemma {:induction false} QuietWhenDecided(p: Precedences, aps: seq<Action>)
    requires NoNonassoc(p) && AllDecided(p, aps)
    ensures Pass(p, aps).1 == 0
    decreases |aps|
  {
    if aps != [] {
      var x, tail := aps[0], aps[1..];
      assert aps == [x] + tail;
      forall j | 0 <= j < |tail| && tail[j].sp == x.sp && Live(x) && Live(tail[j]) ensures Decided(p, x, tail[j]) {
        assert aps[j + 1] == tail[j];
      }
      DefendQuiet(p, x, tail);
      DefendWeaker(p, x, tail);
      var rest := Defend(p, x, tail).1;
      assert AllDecided(p, tail);
      WeakerDecided(p, tail, rest);
      QuietWhenDecided(p, rest);
    }
  }
}
