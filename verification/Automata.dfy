/** `FindStates`, `getstate` and `buildshifts`: the LR(0) automaton by depth-first search
    over sets of configurations. */
module Automata {
  import opened Grammars
  import opened FirstSets
  import opened Closures
  import MergeSort

  /** A shift on `sym` to state number `target`. */
  datatype Shift = Shift(sym: Symbol, target: nat)

  datatype State = State(basis: seq<Item>, closed: Closed, shifts: seq<Shift>)

  /** `Configcmp` */
  function ItemCmp(a: Item, b: Item): int {
    if a.rule != b.rule then a.rule - b.rule else a.dot - b.dot
  }

  lemma ItemCmpOrders()
    ensures MergeSort.TotalPreorder(ItemCmp)
  {
  }

  /** Sorted by `Configcmp`, without repetition: the form of every state key. */
  ghost predicate IsKey(s: seq<Item>) {
    forall i, j :: 0 <= i < j < |s| ==> ItemCmp(s[i], s[j]) < 0
  }

  /** Two keys with the same configurations are the same list, so comparing keys
      element by element compares the sets. */
  lemma {:induction false} KeyUnique(s: seq<Item>, t: seq<Item>)
    requires IsKey(s) && IsKey(t) && Members(s) == Members(t)
    ensures s == t
  {
    if s == [] || t == [] {
      NoMembers(s);
      NoMembers(t);
    } else {
      assert s[0] in Members(t) && t[0] in Members(s);
      assert s[0] == t[0];
      assert Members(s[1..]) == Members(s) - {s[0]} by { TailMembers(s); }
      assert Members(t[1..]) == Members(t) - {t[0]} by { TailMembers(t); }
      KeyUnique(s[1..], t[1..]);
      assert s == [s[0]] + s[1..] && t == [t[0]] + t[1..];
    }
  }

  lemma NoMembers(s: seq<Item>)
    ensures s == [] <==> Members(s) == {}
  {
    if s != [] { assert s[0] in Members(s); }
  }

  lemma TailMembers(s: seq<Item>)
    requires IsKey(s) && s != []
    ensures Members(s[1..]) == Members(s) - {s[0]}
  {
    assert s == [s[0]] + s[1..];
    assert s[0] !in s[1..];
  }

  /** Sorting a list without repetitions gives the key of its set. */
  method SortItems(s: seq<Item>) returns (r: seq<Item>)
    requires MergeSort.NoRepeats(s)
    ensures IsKey(r) && Members(r) == Members(s) && MergeSort.NoRepeats(r)
    ensures forall x :: x in r <==> x in s
  {
    ItemCmpOrders();
    r := MergeSort.Msort(ItemCmp, s);
    PermutationKey(s, r);
  }

  lemma PermutationKey(s: seq<Item>, r: seq<Item>)
    requires MergeSort.NoRepeats(s) && multiset(s) == multiset(r) && MergeSort.Sorted(ItemCmp, r)
    ensures IsKey(r) && Members(r) == Members(s) && MergeSort.NoRepeats(r)
    ensures forall x :: x in r <==> x in s
  {
    assert MergeSort.NoRepeats(s);
    MergeSort.RearrangedElements(s, r);
  }

  // ---- The specification of the automaton ----

  /** The basis of the state reached from `items` over `s`. */
  ghost function Moved(g: Grammar, items: seq<Item>, s: Symbol): set<Item> {
    set x | x in items && Before(g, x, s) :: Advance(x)
  }

  /** The initial configurations: the rules of the start symbol, dot at the left end. */
  predicate IsStartItem(g: Grammar, x: Item) {
    ValidItem(g, x) && x.dot == 0 && Lhs(g, x) == g.start
  }

  function Seed(k: nat): set<nat> { if k == 0 then {0} else {} }

  ghost predicate StateOk(g: Grammar, an: Analysis, st: State, k: nat)
    requires Sized(g, an)
  {
    && IsKey(st.basis) && ValidItems(g, st.basis)
    && IsClosure(g, an, st.basis, Seed(k), st.closed)
    && (k == 0 ==> forall x :: x in st.basis <==> IsStartItem(g, x))
    && (k > 0 ==> forall x :: x in st.basis ==> x.dot > 0)
  }

  ghost predicate ShiftOk(g: Grammar, states: seq<State>, k: nat, sh: Shift)
    requires k < |states|
  {
    && sh.target < |states| && sh.target > 0
    && (exists y :: y in states[k].closed.items && Before(g, y, sh.sym))
    && Members(states[sh.target].basis) == Moved(g, states[k].closed.items, sh.sym)
  }

  /** State `k` has a shift for every symbol after a dot, to the state of the moved set. */
  ghost predicate Complete(g: Grammar, states: seq<State>, k: nat)
    requires k < |states|
  {
    && (forall sh :: sh in states[k].shifts ==> ShiftOk(g, states, k, sh))
    && (forall y, s :: y in states[k].closed.items && Before(g, y, s) ==> exists sh :: sh in states[k].shifts && sh.sym == s)
    && (forall i, j :: 0 <= i < j < |states[k].shifts| ==> states[k].shifts[i].sym != states[k].shifts[j].sym)
  }

  ghost predicate AllOk(g: Grammar, an: Analysis, states: seq<State>)
    requires Sized(g, an)
  {
    forall k :: 0 <= k < |states| ==> StateOk(g, an, states[k], k)
  }

  /** No two states have the same basis. */
  ghost predicate DistinctBases(states: seq<State>) {
    forall i, j :: 0 <= i < j < |states| ==> states[i].basis != states[j].basis
  }

  ghost predicate ShiftsInto(states: seq<State>, a: nat, b: nat) {
    a < |states| && exists sh :: sh in states[a].shifts && sh.target == b
  }

  /** A path of exactly `n` shifts from `a` to `b`. */
  ghost predicate LeadsIn(states: seq<State>, n: nat, a: nat, b: nat) {
    if n == 0 then a == b else exists c: nat :: ShiftsInto(states, a, c) && LeadsIn(states, n - 1, c, b)
  }

  ghost predicate Leads(states: seq<State>, a: nat, b: nat) { exists n: nat :: LeadsIn(states, n, a, b) }

  /** Every state from `from` on is reached from `root` along shifts. */
  ghost predicate Rooted(states: seq<State>, from: nat, root: nat) {
    forall k: nat :: from <= k < |states| ==> Leads(states, root, k)
  }

  /** The finished automaton: every state closed and complete, no state twice, none out of reach. */
  ghost predicate IsAutomaton(g: Grammar, an: Analysis, states: seq<State>)
    requires Sized(g, an)
  {
    && |states| > 0 && AllOk(g, an, states)
    && (forall k :: 0 <= k < |states| ==> Complete(g, states, k))
    && DistinctBases(states) && Rooted(states, 0, 0)
  }

  // ---- Termination: every new state uses up one set of configurations ----

  ghost function Unseen(g: Grammar, states: seq<State>): set<set<Item>> {
    set b: set<Item> | b <= AllItems(g) && forall k :: 0 <= k < |states| ==> Members(states[k].basis) != b
  }

  lemma NewStateShrinks(g: Grammar, states: seq<State>, st: State)
    requires ValidItems(g, st.basis)
    requires forall k :: 0 <= k < |states| ==> Members(states[k].basis) != Members(st.basis)
    ensures Unseen(g, states + [st]) < Unseen(g, states)
  {
    var b := Members(st.basis);
    assert b <= AllItems(g) by {
      forall x | x in b ensures x in AllItems(g) {
        var i :| 0 <= i < |st.basis| && st.basis[i] == x;
        assert ValidItem(g, x);
      }
    }
    var all := states + [st];
    assert Members(all[|states|].basis) == b;
    assert b in Unseen(g, states) && b !in Unseen(g, all);
    forall c | c in Unseen(g, all) ensures c in Unseen(g, states) {
      forall k | 0 <= k < |states| ensures Members(states[k].basis) != c { assert all[k] == states[k]; }
    }
  }

  lemma UnseenOnlyBasis(g: Grammar, a: seq<State>, b: seq<State>)
    requires |a| == |b| && forall k :: 0 <= k < |a| ==> a[k].basis == b[k].basis
    ensures Unseen(g, a) == Unseen(g, b)
  {
  }

  /** `b` extends `a`: the states of `a` are unchanged. */
  ghost predicate Extends(a: seq<State>, b: seq<State>) {
    |a| <= |b| && forall k :: 0 <= k < |a| ==> b[k] == a[k]
  }

  lemma CompleteExtends(g: Grammar, a: seq<State>, b: seq<State>, k: nat)
    requires Extends(a, b) && k < |a| && Complete(g, a, k)
    ensures Complete(g, b, k)
  {
    forall sh | sh in b[k].shifts ensures ShiftOk(g, b, k, sh) {
      assert ShiftOk(g, a, k, sh);
    }
  }

  /** States from `from` on are complete, except the one being worked on. */
  ghost predicate CompleteFrom(g: Grammar, states: seq<State>, from: nat, except: int) {
    forall k :: from <= k < |states| && k != except ==> Complete(g, states, k)
  }

  // ---- The builder ----

  /** The inner loop of `buildshifts`: mark every unmarked configuration with `sym` after
      its dot and collect them with the dot moved. */
  method CollectBasis(g: Grammar, items: seq<Item>, used: set<Item>, from: nat, sym: Symbol) returns (basis: seq<Item>, used': set<Item>)
    requires ValidItems(g, items) && MergeSort.NoRepeats(items) && from <= |items|
    requires forall x :: x in items[..from] ==> !Before(g, x, sym)
    requires forall x :: x in items && Before(g, x, sym) ==> x !in used
    ensures ValidItems(g, basis) && MergeSort.NoRepeats(basis) && Members(basis) == Moved(g, items, sym)
    ensures forall x :: x in used' <==> x in used || (x in items && Before(g, x, sym))
  {
    basis, used' := [], used;
    MovedNone(g, items[..from], sym);
    for j := from to |items|
      invariant ValidItems(g, basis) && MergeSort.NoRepeats(basis) && Members(basis) == Moved(g, items[..j], sym)
      invariant forall x :: x in used' <==> x in used || (x in items[..j] && Before(g, x, sym))
    {
      var x := items[j];
      assert items[..j + 1] == items[..j] + [x] && x !in items[..j] && ValidItem(g, x);
      MovedMore(g, items[..j], x, sym);
      if x !in used' && Before(g, x, sym) {
        MembersMore(basis, Advance(x));
        basis := basis + [Advance(x)];
        used' := used' + {x};
      }
    }
    assert items[..|items|] == items;
  }

  lemma MovedNone(g: Grammar, items: seq<Item>, sym: Symbol)
    requires forall x :: x in items ==> !Before(g, x, sym)
    ensures Moved(g, items, sym) == {}
  {
  }

  lemma MovedMore(g: Grammar, items: seq<Item>, x: Item, sym: Symbol)
    ensures Moved(g, items + [x], sym) == Moved(g, items, sym) + (if Before(g, x, sym) then {Advance(x)} else {})
    ensures x !in items ==> Advance(x) !in Moved(g, items, sym)
  {
    var all := items + [x];
    assert forall y :: y in all <==> y in items || y == x;
    forall z | z in Moved(g, items, sym) ensures z in Moved(g, all, sym) {
      var y :| y in items && Before(g, y, sym) && z == Advance(y);
      assert y in all;
    }
  }

  lemma MembersMore(s: seq<Item>, x: Item)
    ensures Members(s + [x]) == Members(s) + {x}
    ensures MergeSort.NoRepeats(s) && x !in Members(s) ==> MergeSort.NoRepeats(s + [x])
  {
    assert forall y :: y in s + [x] <==> y in s || y == x;
  }

  lemma ClosureReordered(g: Grammar, an: Analysis, basis: seq<Item>, seed: set<nat>, c: Closed, items: seq<Item>)
    requires Sized(g, an) && IsClosure(g, an, basis, seed, c)
    requires MergeSort.NoRepeats(items) && (forall x :: x in items <==> x in c.items) && Members(items) == Members(c.items)
    ensures IsClosure(g, an, basis, seed, c.(items := items))
  {
    hide InClosure, Linked, Contributes;
    forall i | 0 <= i < |items| ensures ValidItem(g, items[i]) {
      assert items[i] in c.items;
    }
  }

  class Builder {
    const g: Grammar
    const an: Analysis
    var states: seq<State>

    constructor (g: Grammar, an: Analysis)
      ensures this.g == g && this.an == an && states == []
    {
      this.g, this.an, states := g, an, [];
    }

    /** `State_find` */
    method Find(key: seq<Item>) returns (k: nat)
      ensures k <= |states| && (k < |states| ==> states[k].basis == key)
      ensures k == |states| ==> forall i :: 0 <= i < |states| ==> states[i].basis != key
    {
      k := 0;
      while k < |states| && states[k].basis != key
        invariant k <= |states| && forall i :: 0 <= i < k ==> states[i].basis != key
      {
        k := k + 1;
      }
    }

    /** `getstate`: the number of the state with this basis, built on demand together with
        everything reachable from it. */
    method GetState(basis: seq<Item>) returns (s: nat)
      requires Sized(g, an) && AllOk(g, an, states) && DistinctBases(states) && ValidItems(g, basis) && MergeSort.NoRepeats(basis)
      requires states == [] ==> forall x :: x in basis <==> IsStartItem(g, x)
      requires states != [] ==> basis != [] && forall x :: x in basis ==> x.dot > 0
      modifies this
      ensures s < |states| && Members(states[s].basis) == Members(basis) && (old(states) != [] ==> s > 0)
      ensures old(states) == [] ==> s == 0
      ensures Extends(old(states), states) && AllOk(g, an, states) && CompleteFrom(g, states, |old(states)|, -1)
      ensures DistinctBases(states) && Rooted(states, |old(states)|, s)
      ensures Unseen(g, states) <= Unseen(g, old(states))
      decreases Unseen(g, states), 0
    {
      hide AllOk, Unseen, CompleteFrom, Complete, IsClosure, DistinctBases, Leads;
      var key := SortItems(basis);
      KeyIsValid(g, basis, key);
      s := Find(key);
      if s < |states| {
        NothingNew(g, states);
        FoundLater(g, an, states, s, basis);
        return;
      }
      var c := Closure(g, an, key, Seed(|states|));
      ClosureNoRepeats(g, an, key, Seed(|states|), c);
      var sorted := SortItems(c.items);
      ClosureReordered(g, an, key, Seed(|states|), c, sorted);
      var st := State(key, c.(items := sorted), []);
      NewKey(g, an, states, key);
      NewStateShrinks(g, states, st);
      DistinctAdd(states, st);
      AllOkAdd(g, an, states, st);
      ghost var before := states;
      states := states + [st];
      BuildShifts(s);
      AllNewComplete(g, before, st, states);
      LeadsToItself(states, s);
    }

    /** `buildshifts`: one shift for each symbol after a dot, each configuration used once. */
    method BuildShifts(k: nat)
      requires Sized(g, an) && AllOk(g, an, states) && DistinctBases(states) && k < |states| && states[k].shifts == []
      modifies this
      ensures |old(states)| <= |states| && (forall i :: 0 <= i < |old(states)| && i != k ==> states[i] == old(states)[i])
      ensures states[k] == old(states)[k].(shifts := states[k].shifts)
      ensures AllOk(g, an, states) && Complete(g, states, k) && CompleteFrom(g, states, |old(states)|, -1)
      ensures DistinctBases(states) && Rooted(states, |old(states)|, k)
      ensures Unseen(g, states) <= Unseen(g, old(states))
      decreases Unseen(g, states), 1
    {
      hide AllOk, Unseen, CompleteFrom, Complete, IsClosure, ShiftsSoFar, Moved, DistinctBases, Rooted, Found;
      var items := states[k].closed.items;
      ItemsValid(g, an, states, k);
      var used: set<Item> := {};
      var shifts: seq<Shift> := [];
      NothingNew(g, states);
      ShiftsNone(g, states, k);
      NothingFound(states);
      for i := 0 to |items|
        invariant Extends(old(states), states) && AllOk(g, an, states)
        invariant CompleteFrom(g, states, |old(states)|, -1)
        invariant ShiftsSoFar(g, states, k, shifts, used, i)
        invariant DistinctBases(states) && Found(states, |old(states)|, shifts)
        invariant Unseen(g, states) <= Unseen(g, old(states))
      {
        var x := items[i];
        if x in used || AtEnd(g, x) {
          ShiftsSkip(g, states, k, shifts, used, i);
          continue;
        }
        var sym := g.rules[x.rule].rhs[x.dot];
        ShiftsFresh(g, states, k, shifts, used, i, sym);
        var basis, used' := CollectBasis(g, items, used, i, sym);
        MovedBasis(g, items, x, sym, basis);
        ghost var before := states;
        ghost var u := Unseen(g, states);
        var target := GetState(basis);
        CompleteFromExtends(g, before, states, |old(states)|);
        ShiftsExtend(g, before, states, k, shifts, used, i);
        ShiftsAdd(g, states, k, shifts, used, i, sym, target, used');
        FoundMore(before, states, |old(states)|, shifts, Shift(sym, target));
        used := used';
        shifts := shifts + [Shift(sym, target)];
      }
      ShiftsDone(g, an, states, k, shifts, used, |old(states)|);
      FoundRooted(states, |old(states)|, k, shifts);
      states := states[k := states[k].(shifts := shifts)];
    }

    /** `FindStates` */
    method FindStates()
      requires Sized(g, an) && states == []
      modifies this
      ensures IsAutomaton(g, an, states)
    {
      var basis: seq<Item> := [];
      for r := 0 to |g.rules|
        invariant ValidItems(g, basis) && MergeSort.NoRepeats(basis)
        invariant forall x :: x in basis <==> IsStartItem(g, x) && x.rule < r
      {
        if g.rules[r].lhs == g.start {
          basis := basis + [Item(r, 0)];
        }
      }
      var _ := GetState(basis);
    }
  }

  // ---- Steps of the builder, on values ----

  lemma KeyIsValid(g: Grammar, basis: seq<Item>, key: seq<Item>)
    requires ValidItems(g, basis) && forall x :: x in key <==> x in basis
    ensures ValidItems(g, key)
  {
    forall i | 0 <= i < |key| ensures ValidItem(g, key[i]) { assert key[i] in basis; }
  }

  lemma NothingNew(g: Grammar, states: seq<State>)
    ensures Extends(states, states) && CompleteFrom(g, states, |states|, -1)
  {
  }

  lemma FoundLater(g: Grammar, an: Analysis, states: seq<State>, s: nat, basis: seq<Item>)
    requires Sized(g, an) && AllOk(g, an, states) && s < |states| && Members(states[s].basis) == Members(basis)
    requires basis != [] && forall x :: x in basis ==> x.dot > 0
    ensures s > 0
  {
    assert StateOk(g, an, states[s], s);
    assert basis[0] in Members(basis);
    assert basis[0] in states[s].basis;
  }

  lemma ClosureNoRepeats(g: Grammar, an: Analysis, basis: seq<Item>, seed: set<nat>, c: Closed)
    requires Sized(g, an) && IsClosure(g, an, basis, seed, c)
    ensures MergeSort.NoRepeats(c.items) && ValidItems(g, c.items)
  {
  }

  lemma NewKey(g: Grammar, an: Analysis, states: seq<State>, key: seq<Item>)
    requires Sized(g, an) && AllOk(g, an, states) && IsKey(key)
    requires forall i :: 0 <= i < |states| ==> states[i].basis != key
    ensures forall i :: 0 <= i < |states| ==> Members(states[i].basis) != Members(key)
  {
    forall i | 0 <= i < |states| ensures Members(states[i].basis) != Members(key) {
      assert StateOk(g, an, states[i], i);
      if Members(states[i].basis) == Members(key) { KeyUnique(states[i].basis, key); }
    }
  }

  lemma DistinctAdd(states: seq<State>, st: State)
    requires DistinctBases(states) && forall i :: 0 <= i < |states| ==> states[i].basis != st.basis
    ensures DistinctBases(states + [st])
  {
  }

  lemma LeadsToItself(states: seq<State>, s: nat)
    ensures Leads(states, s, s)
  {
    assert LeadsIn(states, 0, s, s);
  }

  /** New states are reached from the targets of the shifts found so far. */
  ghost predicate Found(states: seq<State>, from: nat, shifts: seq<Shift>) {
    forall k: nat :: from <= k < |states| ==> FoundFrom(states, shifts, k)
  }

  ghost predicate FoundFrom(states: seq<State>, shifts: seq<Shift>, k: nat) {
    exists i: nat :: i < |shifts| && Leads(states, shifts[i].target, k)
  }

  lemma NothingFound(states: seq<State>)
    ensures Found(states, |states|, [])
  {
  }

  lemma {:induction false} LeadsExtends(a: seq<State>, b: seq<State>, n: nat, r: nat, k: nat)
    requires LeadsIn(a, n, r, k) && forall i: nat, j: nat :: ShiftsInto(a, i, j) ==> ShiftsInto(b, i, j)
    ensures LeadsIn(b, n, r, k)
  {
    hide ShiftsInto;
    if n > 0 {
      var c: nat :| ShiftsInto(a, r, c) && LeadsIn(a, n - 1, c, k);
      LeadsExtends(a, b, n - 1, c, k);
    }
  }

  lemma LeadsStill(a: seq<State>, b: seq<State>, r: nat, k: nat)
    requires Leads(a, r, k) && forall i: nat, j: nat :: ShiftsInto(a, i, j) ==> ShiftsInto(b, i, j)
    ensures Leads(b, r, k)
  {
    hide ShiftsInto;
    var n: nat :| LeadsIn(a, n, r, k);
    LeadsExtends(a, b, n, r, k);
  }

  lemma FoundMore(a: seq<State>, b: seq<State>, from: nat, shifts: seq<Shift>, added: Shift)
    requires Extends(a, b) && from <= |a| && Found(a, from, shifts) && Rooted(b, |a|, added.target)
    ensures Found(b, from, shifts + [added])
  {
    var all := shifts + [added];
    assert all[|shifts|] == added;
    assert forall i: nat, j: nat :: ShiftsInto(a, i, j) ==> ShiftsInto(b, i, j);
    hide ShiftsInto, Leads;
    forall k: nat | from <= k < |b| ensures FoundFrom(b, all, k) {
      if k < |a| {
        assert FoundFrom(a, shifts, k);
        var i: nat :| i < |shifts| && Leads(a, shifts[i].target, k);
        LeadsStill(a, b, shifts[i].target, k);
        assert all[i] == shifts[i];
      } else {
        assert Leads(b, all[|shifts|].target, k);
      }
    }
  }

  /** Once the shifts are stored, the new states are reached from their state. */
  lemma FoundRooted(states: seq<State>, from: nat, k: nat, shifts: seq<Shift>)
    requires k < |states| && states[k].shifts == [] && Found(states, from, shifts)
    ensures Rooted(states[k := states[k].(shifts := shifts)], from, k)
    ensures DistinctBases(states) ==> DistinctBases(states[k := states[k].(shifts := shifts)])
  {
    var done := states[k := states[k].(shifts := shifts)];
    assert forall i: nat, j: nat :: ShiftsInto(states, i, j) ==> ShiftsInto(done, i, j);
    forall j: nat | from <= j < |done| ensures Leads(done, k, j) {
      assert FoundFrom(states, shifts, j);
      var i: nat :| i < |shifts| && Leads(states, shifts[i].target, j);
      var sh := shifts[i];
      LeadsStill(states, done, sh.target, j);
      assert ShiftsInto(done, k, sh.target);
      var n: nat :| LeadsIn(done, n, sh.target, j);
      assert LeadsIn(done, n + 1, k, j);
    }
  }

  lemma AllOkAdd(g: Grammar, an: Analysis, states: seq<State>, st: State)
    requires Sized(g, an) && AllOk(g, an, states) && StateOk(g, an, st, |states|)
    ensures AllOk(g, an, states + [st])
  {
    hide StateOk;
    var all := states + [st];
    forall k | 0 <= k < |all| ensures StateOk(g, an, all[k], k) {
      if k < |states| { assert all[k] == states[k]; }
    }
  }

  lemma AllNewComplete(g: Grammar, before: seq<State>, st: State, states: seq<State>)
    requires |before| < |states| && (forall i :: 0 <= i < |before| ==> states[i] == (before + [st])[i])
    requires Complete(g, states, |before|) && CompleteFrom(g, states, |before| + 1, -1)
    ensures Extends(before, states) && CompleteFrom(g, states, |before|, -1)
  {
    hide Complete;
    assert forall i :: 0 <= i < |before| ==> (before + [st])[i] == before[i];
  }

  lemma ItemsValid(g: Grammar, an: Analysis, states: seq<State>, k: nat)
    requires Sized(g, an) && AllOk(g, an, states) && k < |states|
    ensures ValidItems(g, states[k].closed.items) && MergeSort.NoRepeats(states[k].closed.items)
  {
    assert StateOk(g, an, states[k], k);
  }

  /** The state of `buildshifts` on state `k` before configuration `i`. */
  ghost predicate ShiftsSoFar(g: Grammar, states: seq<State>, k: nat, shifts: seq<Shift>, used: set<Item>, i: nat) {
    && k < |states| && i <= |states[k].closed.items|
    && (forall sh :: sh in shifts ==> ShiftOk(g, states, k, sh))
    && (forall x :: x in used <==> x in states[k].closed.items && exists sh :: sh in shifts && Before(g, x, sh.sym))
    && (forall a, b :: 0 <= a < b < |shifts| ==> shifts[a].sym != shifts[b].sym)
    && (forall x, s :: x in states[k].closed.items[..i] && Before(g, x, s) ==> x in used)
  }

  lemma ShiftsNone(g: Grammar, states: seq<State>, k: nat)
    requires k < |states|
    ensures ShiftsSoFar(g, states, k, [], {}, 0)
  {
  }

  lemma ShiftsSkip(g: Grammar, states: seq<State>, k: nat, shifts: seq<Shift>, used: set<Item>, i: nat)
    requires ShiftsSoFar(g, states, k, shifts, used, i) && i < |states[k].closed.items|
    requires ValidItem(g, states[k].closed.items[i])
    requires states[k].closed.items[i] in used || AtEnd(g, states[k].closed.items[i])
    ensures ShiftsSoFar(g, states, k, shifts, used, i + 1)
  {
    var items := states[k].closed.items;
    assert items[..i + 1] == items[..i] + [items[i]];
  }

  /** An unused configuration means its symbol has not been shifted yet, and no earlier
      configuration has that symbol. */
  lemma ShiftsFresh(g: Grammar, states: seq<State>, k: nat, shifts: seq<Shift>, used: set<Item>, i: nat, sym: Symbol)
    requires ShiftsSoFar(g, states, k, shifts, used, i) && i < |states[k].closed.items|
    requires Before(g, states[k].closed.items[i], sym) && states[k].closed.items[i] !in used
    ensures forall sh :: sh in shifts ==> sh.sym != sym
    ensures forall x :: x in states[k].closed.items && Before(g, x, sym) ==> x !in used
    ensures forall x :: x in states[k].closed.items[..i] ==> !Before(g, x, sym)
  {
    var x0 := states[k].closed.items[i];
    assert x0 in states[k].closed.items;
    forall sh | sh in shifts ensures sh.sym != sym { }
    forall x | x in states[k].closed.items && Before(g, x, sym) ensures x !in used {
      assert forall sh :: sh in shifts && Before(g, x, sh.sym) ==> sh.sym == sym;
    }
  }

  lemma MovedBasis(g: Grammar, items: seq<Item>, x: Item, sym: Symbol, basis: seq<Item>)
    requires x in items && Before(g, x, sym) && Members(basis) == Moved(g, items, sym)
    ensures basis != [] && forall z :: z in basis ==> z.dot > 0
  {
    assert Advance(x) in Members(basis);
    forall z | z in basis ensures z.dot > 0 { assert z in Members(basis); }
  }

  lemma CompleteFromExtends(g: Grammar, a: seq<State>, b: seq<State>, from: nat)
    requires Extends(a, b) && CompleteFrom(g, a, from, -1) && CompleteFrom(g, b, |a|, -1)
    ensures CompleteFrom(g, b, from, -1)
  {
    hide Complete;
    forall k | from <= k < |b| ensures Complete(g, b, k) {
      if k < |a| { CompleteExtends(g, a, b, k); }
    }
  }

  lemma ShiftsExtend(g: Grammar, a: seq<State>, b: seq<State>, k: nat, shifts: seq<Shift>, used: set<Item>, i: nat)
    requires Extends(a, b) && ShiftsSoFar(g, a, k, shifts, used, i)
    ensures ShiftsSoFar(g, b, k, shifts, used, i)
  {
    forall sh | sh in shifts ensures ShiftOk(g, b, k, sh) { assert ShiftOk(g, a, k, sh); }
  }

  lemma ShiftsAdd(g: Grammar, states: seq<State>, k: nat, shifts: seq<Shift>, used: set<Item>, i: nat, sym: Symbol, target: nat, used': set<Item>)
    requires ShiftsSoFar(g, states, k, shifts, used, i) && i < |states[k].closed.items|
    requires Before(g, states[k].closed.items[i], sym)
    requires forall sh :: sh in shifts ==> sh.sym != sym
    requires 0 < target < |states| && Members(states[target].basis) == Moved(g, states[k].closed.items, sym)
    requires forall x :: x in used' <==> x in used || (x in states[k].closed.items && Before(g, x, sym))
    ensures ShiftsSoFar(g, states, k, shifts + [Shift(sym, target)], used', i + 1)
  {
    hide Moved;
    var items, added := states[k].closed.items, Shift(sym, target);
    assert items[..i + 1] == items[..i] + [items[i]];
    assert items[i] in items && ShiftOk(g, states, k, added);
    var all := shifts + [added];
    assert forall sh :: sh in all <==> sh in shifts || sh == added;
    UsedAfter(g, items, shifts, added, used, used');
  }

  lemma UsedAfter(g: Grammar, items: seq<Item>, shifts: seq<Shift>, added: Shift, used: set<Item>, used': set<Item>)
    requires forall x :: x in used <==> x in items && exists sh :: sh in shifts && Before(g, x, sh.sym)
    requires forall x :: x in used' <==> x in used || (x in items && Before(g, x, added.sym))
    ensures forall x :: x in used' <==> x in items && exists sh :: sh in shifts + [added] && Before(g, x, sh.sym)
  {
    forall x ensures x in used' <==> x in items && exists sh :: sh in shifts + [added] && Before(g, x, sh.sym) {
      if x in items && Before(g, x, added.sym) {
        assert added in shifts + [added];
      }
      if x in used {
        var sh :| sh in shifts && Before(g, x, sh.sym);
        assert sh in shifts + [added];
      }
    }
  }

  lemma ShiftsDone(g: Grammar, an: Analysis, states: seq<State>, k: nat, shifts: seq<Shift>, used: set<Item>, from: nat)
    requires Sized(g, an) && AllOk(g, an, states) && k < |states| && k < from <= |states|
    requires ShiftsSoFar(g, states, k, shifts, used, |states[k].closed.items|) && CompleteFrom(g, states, from, -1)
    ensures var done := states[k := states[k].(shifts := shifts)];
      && AllOk(g, an, done) && Complete(g, done, k) && CompleteFrom(g, done, from, -1)
      && Unseen(g, done) == Unseen(g, states)
  {
    var done := states[k := states[k].(shifts := shifts)];
    UnseenOnlyBasis(g, states, done);
    hide Unseen, IsClosure, Moved;
    assert AllOk(g, an, done) by {
      forall i | 0 <= i < |done| ensures StateOk(g, an, done[i], i) { assert StateOk(g, an, states[i], i); }
    }
    hide AllOk, StateOk;
    var items := states[k].closed.items;
    assert items[..|items|] == items;
    forall sh | sh in shifts ensures ShiftOk(g, done, k, sh) { assert ShiftOk(g, states, k, sh); }
    forall y, s | y in items && Before(g, y, s) ensures exists sh :: sh in shifts && sh.sym == s {
      assert y in used;
      var sh :| sh in shifts && Before(g, y, sh.sym);
    }
    forall i | from <= i < |done| ensures Complete(g, done, i) {
      SameComplete(g, states, done, i);
    }
  }

  lemma SameComplete(g: Grammar, a: seq<State>, b: seq<State>, i: nat)
    requires |a| == |b| && i < |a| && a[i] == b[i] && Complete(g, a, i)
    requires forall k :: 0 <= k < |a| ==> a[k].basis == b[k].basis
    ensures Complete(g, b, i)
  {
    forall sh | sh in b[i].shifts ensures ShiftOk(g, b, i, sh) { assert ShiftOk(g, a, i, sh); }
  }
}
