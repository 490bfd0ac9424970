/** Parser actions, their ordering, and the pairwise conflict resolution of `FindActions`. */
module Actions {
  import opened Wrappers
  import MergeSort

  /** `enum e_action`, in its declared order. */
  datatype Kind =
    | SHIFT | ACCEPT | REDUCE | ERROR
    | SSCONFLICT | SRCONFLICT | RRCONFLICT | SH_RESOLVED | RD_RESOLVED
    | NOT_USED | SHIFTREDUCE

  function Ord(k: Kind): int {
    match k
    case SHIFT => 0 case ACCEPT => 1 case REDUCE => 2 case ERROR => 3
    case SSCONFLICT => 4 case SRCONFLICT => 5 case RRCONFLICT => 6 case SH_RESOLVED => 7 case RD_RESOLVED => 8
    case NOT_USED => 9 case SHIFTREDUCE => 10
  }

  /** An action on symbol number `sp`.  `arg` is a state number for a shift and a rule
      number for a reduce; `id` stands for the address the action was allocated at. */
  datatype Action = Action(sp: nat, kind: Kind, arg: nat, id: int)

  datatype Assoc = LEFT | RIGHT | NONE | UNK

  /** Precedence declarations: by symbol, and the precedence symbol of each rule. */
  datatype Precedences = Precedences(prec: map<nat, nat>, assoc: map<nat, Assoc>, precsym: map<nat, nat>)

  function PrecOf(p: Precedences, sp: nat): Option<nat> { if sp in p.prec then Some(p.prec[sp]) else None }

  function RulePrec(p: Precedences, rule: nat): Option<nat> {
    if rule in p.precsym then PrecOf(p, p.precsym[rule]) else None
  }

  /** No `%nonassoc`: every symbol with a precedence is left or right associative. */
  predicate NoNonassoc(p: Precedences) {
    forall sp :: sp in p.prec ==> sp in p.assoc && (p.assoc[sp] == LEFT || p.assoc[sp] == RIGHT)
  }

  // ---- The ordering ----

  function RuleKey(a: Action): int { if a.kind == REDUCE || a.kind == SHIFTREDUCE then a.arg else 0 }

  /** `actioncmp`: by lookahead, then kind, then rule, then address. */
  function ActionCmp(a: Action, b: Action): int {
    if a.sp != b.sp then a.sp - b.sp
    else if Ord(a.kind) != Ord(b.kind) then Ord(a.kind) - Ord(b.kind)
    else if RuleKey(a) != RuleKey(b) then RuleKey(a) - RuleKey(b)
    else b.id - a.id
  }

  lemma ActionCmpOrders()
    ensures MergeSort.TotalPreorder(ActionCmp)
  {
  }

  // ---- One conflict ----

  /** An action that ends up in the generated tables. */
  predicate Live(a: Action) {
    a.kind == SHIFT || a.kind == ACCEPT || a.kind == REDUCE || a.kind == ERROR || a.kind == SHIFTREDUCE
  }

  predicate IsConflict(a: Action) { a.kind == SSCONFLICT || a.kind == SRCONFLICT || a.kind == RRCONFLICT }

  /** `resolve_conflict(apx, apy)`: the two actions afterwards, and the error count. */
  function Resolve(p: Precedences, x: Action, y: Action): (Action, Action, nat) {
    if x.kind == SHIFT && y.kind == SHIFT then (x, y.(kind := SSCONFLICT), 1)
    else if x.kind == SHIFT && y.kind == REDUCE then
      var px, py := PrecOf(p, x.sp), RulePrec(p, y.arg);
      if px == None || py == None then (x, y.(kind := SRCONFLICT), 1)
      else if px.value > py.value then (x, y.(kind := RD_RESOLVED), 0)
      else if px.value < py.value then (x.(kind := SH_RESOLVED), y, 0)
      else if x.sp in p.assoc && p.assoc[x.sp] == RIGHT then (x, y.(kind := RD_RESOLVED), 0)
      else if x.sp in p.assoc && p.assoc[x.sp] == LEFT then (x.(kind := SH_RESOLVED), y, 0)
      else (x.(kind := ERROR), y, 0)
    else if x.kind == REDUCE && y.kind == REDUCE then
      var px, py := RulePrec(p, x.arg), RulePrec(p, y.arg);
      if px == None || py == None || px == py then (x, y.(kind := RRCONFLICT), 1)
      else if px.value > py.value then (x, y.(kind := RD_RESOLVED), 0)
      else (x.(kind := RD_RESOLVED), y, 0)
    else (x, y, 0)
  }

  /** The pairs that can meet: a shift is never behind a reduce, and ACCEPT stands alone. */
  predicate Resolvable(x: Action, y: Action) {
    (x.kind == SHIFT && (y.kind == SHIFT || y.kind == REDUCE)) || (x.kind == REDUCE && y.kind == REDUCE)
  }

  /** Which of two competing actions is kept.  A shift beats a shift that comes later.  Between
      a shift and a reduce, precedence decides, associativity breaks a tie, and the shift wins
      when either side has no precedence.  Between reduces the higher precedence wins, else the earlier. */
  function Winner(p: Precedences, x: Action, y: Action): Action {
    if y.kind == SHIFT then x
    else if x.kind == SHIFT then
      if x.sp !in p.prec || y.arg !in p.precsym || p.precsym[y.arg] !in p.prec then x
      else if p.prec[x.sp] > p.prec[p.precsym[y.arg]] then x
      else if p.prec[x.sp] < p.prec[p.precsym[y.arg]] then y
      else if x.sp in p.assoc && p.assoc[x.sp] == RIGHT then x
      else y
    else if x.arg in p.precsym && p.precsym[x.arg] in p.prec && y.arg in p.precsym && p.precsym[y.arg] in p.prec
      && p.prec[p.precsym[x.arg]] < p.prec[p.precsym[y.arg]] then y
    else x
  }

  /** Resolving a live pair keeps the winner untouched and kills the other. */
  lemma ResolveKillsOne(p: Precedences, x: Action, y: Action)
    requires NoNonassoc(p) && Resolvable(x, y) && x.sp == y.sp
    ensures var (x', y', _) := Resolve(p, x, y);
      && (Live(x') <==> !Live(y'))
      && (Live(x') ==> x' == x == Winner(p, x, y))
      && (Live(y') ==> y' == y == Winner(p, x, y))
  {
  }

  lemma ResolveKeeps(p: Precedences, x: Action, y: Action)
    ensures var (x', y', _) := Resolve(p, x, y);
      && x' == x.(kind := x'.kind) && y' == y.(kind := y'.kind)
      && (Live(x') && x'.kind != ERROR ==> x' == x) && (Live(y') ==> y' == y)
      && (!Live(x) ==> x' == x && y' == y) && (!Live(y) ==> x' == x && y' == y)
  {
  }

  // ---- The pass over a sorted list ----

  /** The inner loop: `x` against the actions that follow it with the same lookahead. */
  function Defend(p: Precedences, x: Action, rest: seq<Action>): (r: (Action, seq<Action>, nat))
    ensures |r.1| == |rest|
    decreases |rest|
  {
    if rest == [] || rest[0].sp != x.sp then (x, rest, 0)
    else
      var (x1, y1, e1) := Resolve(p, x, rest[0]);
      var (x2, rest2, e2) := Defend(p, x1, rest[1..]);
      (x2, [y1] + rest2, e1 + e2)
  }

  /** The outer loop. */
  function Pass(p: Precedences, aps: seq<Action>): (r: (seq<Action>, nat))
    ensures |r.0| == |aps|
    decreases |aps|
  {
    if aps == [] then ([], 0)
    else
      var (x, rest, e1) := Defend(p, aps[0], aps[1..]);
      var (rest2, e2) := Pass(p, rest);
      ([x] + rest2, e1 + e2)
  }

  /** The live actions on lookahead `sp`, in list order. */
  function LiveOn(aps: seq<Action>, sp: nat): seq<Action> {
    if aps == [] then []
    else if Live(aps[0]) && aps[0].sp == sp then [aps[0]] + LiveOn(aps[1..], sp)
    else LiveOn(aps[1..], sp)
  }

  /** The action left when each contender in turn challenges the current champion. */
  function Champion(p: Precedences, cs: seq<Action>): Action
    requires cs != []
    decreases |cs|
  {
    if |cs| == 1 then cs[0] else Champion(p, [Winner(p, cs[0], cs[1])] + cs[2..])
  }

  predicate Grouped(aps: seq<Action>) {
    forall i, j :: 0 <= i < j < |aps| ==> aps[i].sp <= aps[j].sp
  }

  predicate AllResolvable(aps: seq<Action>) {
    forall i, j :: 0 <= i < j < |aps| && aps[i].sp == aps[j].sp && Live(aps[i]) && Live(aps[j]) ==> Resolvable(aps[i], aps[j])
  }

  /** `b` is `a` with some actions killed. */
  predicate Weaker(a: seq<Action>, b: seq<Action>) {
    |a| == |b| && forall i :: 0 <= i < |a| ==> b[i] == a[i] || (b[i] == a[i].(kind := b[i].kind) && !Live(b[i]))
  }

  lemma WeakerKeeps(a: seq<Action>, b: seq<Action>)
    requires Weaker(a, b)
    ensures Grouped(a) ==> Grouped(b)
    ensures AllResolvable(a) ==> AllResolvable(b)
  {
    assert forall i :: 0 <= i < |a| ==> b[i].sp == a[i].sp;
    assert forall i :: 0 <= i < |a| && Live(b[i]) ==> b[i] == a[i];
  }

  lemma {:induction false} LiveOnMembers(aps: seq<Action>, sp: nat)
    ensures forall a :: a in LiveOn(aps, sp) <==> a in aps && Live(a) && a.sp == sp
  {
    if aps != [] {
      LiveOnMembers(aps[1..], sp);
      assert aps == [aps[0]] + aps[1..];
    }
  }

  lemma {:induction false} WeakerNoneLive(a: seq<Action>, b: seq<Action>, sp: nat)
    requires Weaker(a, b) && LiveOn(a, sp) == []
    ensures LiveOn(b, sp) == []
  {
    if a != [] { WeakerNoneLive(a[1..], b[1..], sp); }
  }

  lemma {:induction false} NoneBeyond(aps: seq<Action>, sp: nat)
    requires forall i :: 0 <= i < |aps| ==> aps[i].sp != sp
    ensures LiveOn(aps, sp) == []
  {
    if aps != [] { NoneBeyond(aps[1..], sp); }
  }

  lemma {:induction false} DefendDead(p: Precedences, x: Action, rest: seq<Action>)
    requires !Live(x)
    ensures Defend(p, x, rest) == (x, rest, 0)
    decreases |rest|
  {
    if rest != [] && rest[0].sp == x.sp {
      DefendDead(p, x, rest[1..]);
      assert rest == [rest[0]] + rest[1..];
    }
  }

  /** Actions on other lookaheads are not touched. */
  lemma {:induction false} DefendOthers(p: Precedences, x: Action, rest: seq<Action>, sp: nat)
    requires sp != x.sp
    ensures LiveOn(Defend(p, x, rest).1, sp) == LiveOn(rest, sp)
    decreases |rest|
  {
    if rest != [] && rest[0].sp == x.sp {
      var (x1, y1, _) := Resolve(p, x, rest[0]);
      ResolveKeeps(p, x, rest[0]);
      DefendOthers(p, x1, rest[1..], sp);
      var r := Defend(p, x1, rest[1..]).1;
      assert ([y1] + r)[1..] == r;
    }
  }

  lemma WeakerCons(x: Action, a: seq<Action>, x': Action, b: seq<Action>)
    requires Weaker(a, b) && (x' == x || (x' == x.(kind := x'.kind) && !Live(x')))
    ensures Weaker([x] + a, [x'] + b)
  {
  }

  lemma WeakerTrans(a: seq<Action>, b: seq<Action>, c: seq<Action>)
    requires Weaker(a, b) && Weaker(b, c)
    ensures Weaker(a, c)
  {
  }

  lemma {:induction false} DefendWeaker(p: Precedences, x: Action, rest: seq<Action>)
    requires NoNonassoc(p)
    ensures var (x', rest', _) := Defend(p, x, rest);
      Weaker(rest, rest') && (x' == x || (x' == x.(kind := x'.kind) && !Live(x')))
    decreases |rest|
  {
    if rest != [] && rest[0].sp == x.sp {
      var (x1, y1, _) := Resolve(p, x, rest[0]);
      DefendWeaker(p, x1, rest[1..]);
      if !Live(x1) { DefendDead(p, x1, rest[1..]); }
      WeakerCons(rest[0], rest[1..], y1, Defend(p, x1, rest[1..]).1);
      assert rest == [rest[0]] + rest[1..];
    }
  }

  lemma TailOf(x: Action, y: Action, rest: seq<Action>)
    requires Grouped([x] + ([y] + rest)) && AllResolvable([x] + ([y] + rest))
    ensures Grouped([x] + rest) && AllResolvable([x] + rest)
    ensures x.sp == y.sp && Live(x) && Live(y) ==> Resolvable(x, y)
  {
    var a, b := [x] + ([y] + rest), [x] + rest;
    assert a[0] == x && a[1] == y;
    assert forall i :: 1 <= i < |b| ==> b[i] == a[i + 1];
  }

  lemma NextGroup(x: Action, rest: seq<Action>)
    requires Grouped([x] + rest) && (rest == [] || rest[0].sp != x.sp)
    ensures forall i :: 0 <= i < |rest| ==> rest[i].sp != x.sp
  {
    var a := [x] + rest;
    assert a[0] == x && forall i :: 0 <= i < |rest| ==> a[i + 1] == rest[i];
    forall i | 0 <= i < |rest| ensures rest[i].sp != x.sp {
      assert a[0].sp <= a[1].sp <= a[i + 1].sp;
    }
  }

  /** One round of the outer loop: either the defender beats everyone, or it is beaten and the
      challengers that are left have the same champion. */
  lemma {:induction false} DefendOutcome(p: Precedences, x: Action, rest: seq<Action>)
    requires NoNonassoc(p) && Live(x) && Grouped([x] + rest) && AllResolvable([x] + rest)
    ensures var (x', rest', _) := Defend(p, x, rest);
      var c, c' := LiveOn(rest, x.sp), LiveOn(rest', x.sp);
      if Live(x') then x' == x && c' == [] && Champion(p, [x] + c) == x
      else c' != [] && Champion(p, [x] + c) == Champion(p, c')
    decreases |rest|
  {
    if rest == [] || rest[0].sp != x.sp {
      NextGroup(x, rest);
      NoneBeyond(rest, x.sp);
    } else {
      var y, tail := rest[0], rest[1..];
      assert rest == [y] + tail;
      TailOf(x, y, tail);
      var (x1, y1, _) := Resolve(p, x, y);
      var r := Defend(p, x1, tail).1;
      assert ([y1] + r)[1..] == r;
      if !Live(y) {
        ResolveKeeps(p, x, y);
        DefendOutcome(p, x, tail);
      } else {
        ResolveKillsOne(p, x, y);
        var c := LiveOn(tail, x.sp);
        assert ([x] + ([y] + c))[2..] == c;
        if Live(x1) {
          DefendOutcome(p, x, tail);
        } else {
          DefendDead(p, x1, tail);
        }
      }
    }
  }

  lemma {:induction false} PassWeaker(p: Precedences, aps: seq<Action>)
    requires NoNonassoc(p)
    ensures Weaker(aps, Pass(p, aps).0)
    decreases |aps|
  {
    if aps != [] {
      var (x, rest, _) := Defend(p, aps[0], aps[1..]);
      DefendWeaker(p, aps[0], aps[1..]);
      PassWeaker(p, rest);
      WeakerTrans(aps[1..], rest, Pass(p, rest).0);
      WeakerCons(aps[0], aps[1..], x, Pass(p, rest).0);
      assert aps == [aps[0]] + aps[1..];
    }
  }

  /** The pairwise pass leaves exactly one live action on every lookahead that had one, and it
      is the champion of the contenders in list order. */
  lemma {:induction false} PassLeavesChampion(p: Precedences, aps: seq<Action>, sp: nat)
    requires NoNonassoc(p) && Grouped(aps) && AllResolvable(aps)
    ensures LiveOn(aps, sp) == [] ==> LiveOn(Pass(p, aps).0, sp) == []
    ensures LiveOn(aps, sp) != [] ==> LiveOn(Pass(p, aps).0, sp) == [Champion(p, LiveOn(aps, sp))]
    decreases |aps|
  {
    if aps == [] {
    } else {
      var x, tail := aps[0], aps[1..];
      var (x', rest, _) := Defend(p, x, tail);
      assert aps == [x] + tail;
      DefendWeaker(p, x, tail);
      WeakerCons(x, tail, x', rest);
      WeakerKeeps([x] + tail, [x'] + rest);
      SuffixKeeps([x'] + rest);
      assert ([x'] + rest)[1..] == rest;
      PassLeavesChampion(p, rest, sp);
      assert ([x'] + Pass(p, rest).0)[1..] == Pass(p, rest).0;
      if sp != x.sp {
        DefendOthers(p, x, tail, sp);
      } else if !Live(x) {
        DefendDead(p, x, tail);
      } else {
        DefendOutcome(p, x, tail);
      }
    }
  }

  lemma SuffixKeeps(aps: seq<Action>)
    requires Grouped(aps) && AllResolvable(aps) && aps != []
    ensures Grouped(aps[1..]) && AllResolvable(aps[1..])
  {
  }

  /** Without declared precedences a pass that reports nothing has met no two actions on one symbol. */
  lemma {:induction false} QuietPass(p: Precedences, aps: seq<Action>)
    requires p.prec == map[] && Grouped(aps) && AllResolvable(aps) && (forall i :: 0 <= i < |aps| ==> Live(aps[i])) && Pass(p, aps).1 == 0
    ensures forall i, j :: 0 <= i < j < |aps| ==> aps[i].sp != aps[j].sp
    decreases |aps|
  {
    if |aps| >= 2 {
      var x, tail := aps[0], aps[1..];
      assert aps[1] == tail[0];
      if tail[0].sp == x.sp {
        assert Resolvable(aps[0], aps[1]);
        PairReported(p, x, tail);
      }
      assert Defend(p, x, tail) == (x, tail, 0);
      SuffixKeeps(aps);
      QuietPass(p, tail);
      forall i, j | 0 <= i < j < |aps| ensures aps[i].sp != aps[j].sp {
        if i > 0 { assert tail[i - 1] == aps[i] && tail[j - 1] == aps[j]; }
      }
    }
  }

  lemma PairReported(p: Precedences, x: Action, tail: seq<Action>)
    requires p.prec == map[] && tail != [] && tail[0].sp == x.sp && Resolvable(x, tail[0])
    ensures Defend(p, x, tail).2 > 0
  {
  }

  /** The error count is the number of actions marked as unresolved conflicts. */
  function Conflicts(aps: seq<Action>): nat {
    if aps == [] then 0 else Conflicts(aps[1..]) + (if IsConflict(aps[0]) then 1 else 0)
  }

  lemma {:induction false} DefendCounts(p: Precedences, x: Action, rest: seq<Action>)
    ensures var (x', rest', e) := Defend(p, x, rest);
      Conflicts(rest') == Conflicts(rest) + e && IsConflict(x') == IsConflict(x)
    decreases |rest|
  {
    if rest != [] && rest[0].sp == x.sp {
      var (x1, y1, _) := Resolve(p, x, rest[0]);
      DefendCounts(p, x1, rest[1..]);
      var r := Defend(p, x1, rest[1..]).1;
      assert ([y1] + r)[1..] == r;
    }
  }

  lemma {:induction false} PassCounts(p: Precedences, aps: seq<Action>)
    ensures Conflicts(Pass(p, aps).0) == Conflicts(aps) + Pass(p, aps).1
    decreases |aps|
  {
    if aps != [] {
      var (x, rest, _) := Defend(p, aps[0], aps[1..]);
      DefendCounts(p, aps[0], aps[1..]);
      PassCounts(p, rest);
      assert ([x] + Pass(p, rest).0)[1..] == Pass(p, rest).0;
    }
  }

  // ---- The loops ----

  /** The nested loops of `FindActions` over one sorted action list. */
  method ResolveConflicts(p: Precedences, aps: seq<Action>) returns (r: seq<Action>, nconflict: nat)
    ensures (r, nconflict) == Pass(p, aps)
  {
    r, nconflict := aps, 0;
    var i := 0;
    while i < |r|
      invariant 0 <= i <= |r| == |aps|
      invariant Pass(p, aps).0 == r[..i] + Pass(p, r[i..]).0
      invariant Pass(p, aps).1 == nconflict + Pass(p, r[i..]).1
    {
      ghost var before := r;
      var e;
      r, e := DefendAt(p, r, i);
      hide Defend;
      ghost var (x, rest, _) := Defend(p, before[i], before[i + 1..]);
      assert before[i..][0] == before[i] && before[i..][1..] == before[i + 1..];
      assert r[..i + 1] == before[..i] + [x] && r[i + 1..] == rest;
      assert before[..i] + ([x] + Pass(p, rest).0) == before[..i] + [x] + Pass(p, rest).0;
      nconflict := nconflict + e;
      i := i + 1;
    }
    assert r[..i] + [] == r;
  }

  lemma DefendUnroll(p: Precedences, aps: seq<Action>, x: Action, j: nat)
    requires j < |aps| && aps[j].sp == x.sp
    ensures var (x1, y1, e1) := Resolve(p, x, aps[j]);
      var (x2, rest2, e2) := Defend(p, x1, aps[j + 1..]);
      Defend(p, x, aps[j..]) == (x2, [y1] + rest2, e1 + e2)
  {
    assert aps[j..][0] == aps[j] && aps[j..][1..] == aps[j + 1..];
  }

  method DefendAt(p: Precedences, aps: seq<Action>, i: nat) returns (r: seq<Action>, errors: nat)
    requires i < |aps|
    ensures var (x, rest, e) := Defend(p, aps[i], aps[i + 1..]);
      r == aps[..i] + [x] + rest && errors == e
  {
    var x, done, j := aps[i], [], i + 1;
    errors := 0;
    ghost var (x0, rest0, e0) := Defend(p, x, aps[i + 1..]);
    assert rest0 == done + rest0;
    while j < |aps| && aps[j].sp == x.sp
      invariant i < j <= |aps| && |done| == j - i - 1
      invariant (x0, rest0, e0) == (Defend(p, x, aps[j..]).0, done + Defend(p, x, aps[j..]).1, errors + Defend(p, x, aps[j..]).2)
    {
      hide Defend, Resolve;
      DefendUnroll(p, aps, x, j);
      var (x1, y1, e1) := Resolve(p, x, aps[j]);
      ghost var r2 := Defend(p, x1, aps[j + 1..]).1;
      assert done + ([y1] + r2) == done + [y1] + r2;
      x, done, errors, j := x1, done + [y1], errors + e1, j + 1;
    }
    r := aps[..i] + [x] + (done + aps[j..]);
  }
}
