/** The `acttab` module: the action sets of all states overlaid in one array.  Each
    set is found again by an offset; a slot belongs to a set when its recorded
    lookahead is the distance from the offset. */
module ActionTable {

  datatype Slot = Slot(lookahead: int, action: int)

  /** One inserted set: where it was put, its entries, and whether it was inserted
      with `makeItSafe`. */
  datatype Placement = Placement(offset: int, entries: seq<Slot>, safe: bool)

  predicate Has(ps: seq<Slot>, x: int) {
    exists j :: 0 <= j < |ps| && ps[j].lookahead == x
  }

  predicate Distinct(ps: seq<Slot>) {
    forall i, j :: 0 <= i < j < |ps| ==> ps[i].lookahead != ps[j].lookahead
  }

  /** Slot `k` answers to offset `o`: a lookup at `o` of its own lookahead ends there. */
  predicate Answers(t: seq<Slot>, o: int, k: nat)
    requires k < |t|
  {
    t[k].lookahead >= 0 && t[k].lookahead == k - o
  }

  predicate EntryAt(t: seq<Slot>, o: int, p: Slot) {
    0 <= o + p.lookahead < |t| && t[o + p.lookahead] == p
  }

  /** At offset `o` the table shows exactly the entries `ps`. */
  predicate Shows(t: seq<Slot>, o: int, ps: seq<Slot>) {
    && (forall j :: 0 <= j < |ps| ==> EntryAt(t, o, ps[j]))
    && (forall k :: 0 <= k < |t| && Answers(t, o, k) ==> Has(ps, t[k].lookahead))
  }

  /** The lookup of the generated parser, `yy_lookahead[o+x]==x`, as a partial map. */
  predicate Hit(t: seq<Slot>, o: int, x: int) {
    0 <= o + x < |t| && t[o + x].lookahead == x
  }

  /** A table that shows `ps` at `o` behaves as the sparse map `ps`, for every symbol. */
  lemma ShowsIsSparseMap(t: seq<Slot>, o: int, ps: seq<Slot>, x: nat)
    requires Shows(t, o, ps)
    ensures Hit(t, o, x) <==> Has(ps, x)
    ensures forall j :: 0 <= j < |ps| && ps[j].lookahead == x ==> Hit(t, o, x) && t[o + x].action == ps[j].action
  {
    if Hit(t, o, x) {
      assert Answers(t, o, o + x);
    }
    if Has(ps, x) {
      var j :| 0 <= j < |ps| && ps[j].lookahead == x;
      assert EntryAt(t, o, ps[j]);
    }
    forall j | 0 <= j < |ps| && ps[j].lookahead == x
      ensures Hit(t, o, x) && t[o + x].action == ps[j].action
    {
      assert EntryAt(t, o, ps[j]);
    }
  }

  // ---- The three ways an offset is chosen ----

  predicate IsMin(ps: seq<Slot>, mn: int, mnAction: int) {
    && Slot(mn, mnAction) in ps
    && forall j :: 0 <= j < |ps| ==> mn <= ps[j].lookahead
  }

  predicate IsMax(ps: seq<Slot>, mx: int) {
    Has(ps, mx) && forall j :: 0 <= j < |ps| ==> ps[j].lookahead <= mx
  }

  /** The number of slots below `n` that answer to offset `o`. */
  function AnswerCount(t: seq<Slot>, n: nat, o: int): nat
    requires n <= |t|
  {
    if n == 0 then 0 else AnswerCount(t, n - 1, o) + (if Answers(t, o, n - 1) then 1 else 0)
  }

  /** The set `ps` is already in the table at offset `o`, and nothing else answers there. */
  predicate Duplicate(t: seq<Slot>, n: nat, ps: seq<Slot>, o: int)
    requires n <= |t|
  {
    && (forall j :: 0 <= j < |ps| ==> o + ps[j].lookahead < n && EntryAt(t, o, ps[j]))
    && AnswerCount(t, n, o) == |ps|
  }

  predicate SlotsFree(t: seq<Slot>, ps: seq<Slot>, o: int) {
    forall j :: 0 <= j < |ps| ==> 0 <= o + ps[j].lookahead < |t| && t[o + ps[j].lookahead].lookahead < 0
  }

  /** The test of the hole search.  An empty slot just below the offset carries the
      lookahead -1 and is counted as a clash too. */
  predicate Fits(t: seq<Slot>, n: nat, ps: seq<Slot>, o: int)
    requires n <= |t|
  {
    SlotsFree(t, ps, o) && forall k :: 0 <= k < n ==> t[k].lookahead != k - o
  }

  /** No slot answers to `o`: no earlier set uses this offset. */
  predicate Unused(t: seq<Slot>, o: int) {
    forall k :: 0 <= k < |t| ==> !Answers(t, o, k)
  }

  /** The two tests as the code runs them, on the index `i` where the least lookahead goes. */
  predicate DuplicateAt(t: seq<Slot>, n: nat, ps: seq<Slot>, mn: int, i: int)
    requires n <= |t|
  {
    Duplicate(t, n, ps, i - mn)
  }

  predicate FitsAt(t: seq<Slot>, n: nat, ps: seq<Slot>, mn: int, i: int)
    requires n <= |t|
  {
    Fits(t, n, ps, i - mn)
  }

  /** Which index `i` (the place of the least lookahead) `acttab_insert` settles on. */
  predicate Chosen(t: seq<Slot>, n: nat, ps: seq<Slot>, mn: int, mx: int, safe: bool, i: int)
    requires n <= |t|
  {
    var end := if safe then mn else 0;
    if exists d :: end <= d < n && DuplicateAt(t, n, ps, mn, d) then
      end <= i < n && DuplicateAt(t, n, ps, mn, i) && forall d :: i < d < n ==> !DuplicateAt(t, n, ps, mn, d)
    else if exists f :: end <= f < |t| - mx && FitsAt(t, n, ps, mn, f) then
      end <= i < |t| - mx && FitsAt(t, n, ps, mn, i) && forall f :: end <= f < i ==> !FitsAt(t, n, ps, mn, f)
    else
      i == GiveUp(t, mn, mx, safe)
  }

  /** Where the hole search stands when it has found nothing. */
  function GiveUp(t: seq<Slot>, mn: int, mx: int, safe: bool): int {
    if safe && mn > |t| - mx then mn else |t| - mx
  }

  /** When an insertion keeps every set intact: the set is already there, or the hole
      search finds a place, or the place where it gives up has an unused offset. */
  predicate Placeable(t: seq<Slot>, n: nat, ps: seq<Slot>, mn: int, mx: int, safe: bool)
    requires n <= |t|
  {
    var end := if safe then mn else 0;
    || (exists d :: end <= d < n && DuplicateAt(t, n, ps, mn, d))
    || (exists f :: end <= f < |t| - mx && FitsAt(t, n, ps, mn, f))
    || Unused(t, GiveUp(t, mn, mx, safe) - mn)
  }

  /** The enlarged array: `nAction + nsymbol + 1 + nActionAlloc + 20` slots. */
  function Enlarged(t: seq<Slot>, n: nat, nsymbol: nat): (r: seq<Slot>)
    ensures n + nsymbol + 1 < |r| && |t| <= |r| && r[..|t|] == t
    ensures forall k :: |t| <= k < |r| ==> r[k] == Slot(-1, -1)
  {
    if n + nsymbol + 1 < |t| then t
    else
      var r := t + seq(n + nsymbol + 21, _ => Slot(-1, -1));
      r
  }

  predicate InBounds(t: seq<Slot>, ps: seq<Slot>, o: int) {
    forall j :: 0 <= j < |ps| ==> 0 <= o + ps[j].lookahead < |t|
  }

  /** The array after the entries have been stored at offset `o`. */
  function Stored(t: seq<Slot>, o: int, ps: seq<Slot>): (r: seq<Slot>)
    requires InBounds(t, ps, o)
    ensures |r| == |t|
  {
    if ps == [] then t
    else
      var m := |ps| - 1;
      Stored(t, o, ps[..m])[o + ps[m].lookahead := ps[m]]
  }

  lemma {:induction false} StoredAt(t: seq<Slot>, o: int, ps: seq<Slot>)
    requires forall j :: 0 <= j < |ps| ==> 0 <= o + ps[j].lookahead < |t|
    requires Distinct(ps)
    ensures forall j :: 0 <= j < |ps| ==> EntryAt(Stored(t, o, ps), o, ps[j])
    ensures forall k :: 0 <= k < |t| && !Has(ps, k - o) ==> Stored(t, o, ps)[k] == t[k]
    ensures forall k :: 0 <= k < |t| && Has(ps, k - o) ==> Stored(t, o, ps)[k].lookahead == k - o
  {
    if ps != [] {
      var m := |ps| - 1;
      StoredAt(t, o, ps[..m]);
      forall k | 0 <= k < |t| && !Has(ps, k - o) ensures Stored(t, o, ps)[k] == t[k] {
        assert ps[m].lookahead != k - o;
        assert !Has(ps[..m], k - o) by {
          assert forall j :: 0 <= j < m ==> ps[..m][j] == ps[j];
        }
      }
      forall j | 0 <= j < |ps| ensures EntryAt(Stored(t, o, ps), o, ps[j]) {
        if j < m { assert EntryAt(Stored(t, o, ps[..m]), o, ps[..m][j]); }
      }
    }
    forall k | 0 <= k < |t| && Has(ps, k - o) ensures Stored(t, o, ps)[k].lookahead == k - o {
      var j :| 0 <= j < |ps| && ps[j].lookahead == k - o;
      assert EntryAt(Stored(t, o, ps), o, ps[j]);
    }
  }

  // ---- Why a duplicate is exact: counting ----

  ghost function AnswerSet(t: seq<Slot>, n: nat, o: int): set<int>
    requires n <= |t|
  {
    set k | 0 <= k < n && Answers(t, o, k)
  }

  lemma {:induction false} AnswerSetSize(t: seq<Slot>, n: nat, o: int)
    requires n <= |t|
    ensures |AnswerSet(t, n, o)| == AnswerCount(t, n, o)
  {
    if n > 0 {
      AnswerSetSize(t, n - 1, o);
      if Answers(t, o, n - 1) {
        assert AnswerSet(t, n, o) == AnswerSet(t, n - 1, o) + {n - 1};
      } else {
        assert AnswerSet(t, n, o) == AnswerSet(t, n - 1, o);
      }
    }
  }

  ghost function Places(ps: seq<Slot>, o: int): set<int> {
    set j | 0 <= j < |ps| :: o + ps[j].lookahead
  }

  lemma {:induction false} PlacesSize(ps: seq<Slot>, o: int)
    requires Distinct(ps)
    ensures |Places(ps, o)| == |ps|
  {
    if ps != [] {
      var m := |ps| - 1;
      PlacesSize(ps[..m], o);
      assert Places(ps, o) == Places(ps[..m], o) + {o + ps[m].lookahead};
      assert o + ps[m].lookahead !in Places(ps[..m], o);
    }
  }

  lemma SubsetOfSameSize(a: set<int>, b: set<int>)
    requires a <= b && |a| == |b|
    ensures a == b
  {
    assert b == a + (b - a);
    assert |b - a| == 0;
  }

  lemma DuplicateShows(t: seq<Slot>, n: nat, ps: seq<Slot>, o: int)
    requires n <= |t| && Distinct(ps) && Duplicate(t, n, ps, o)
    requires forall j :: 0 <= j < |ps| ==> 0 <= ps[j].lookahead
    requires forall k :: n <= k < |t| ==> t[k].lookahead < 0
    ensures Shows(t, o, ps)
  {
    AnswerSetSize(t, n, o);
    PlacesSize(ps, o);
    assert Places(ps, o) <= AnswerSet(t, n, o) by {
      forall j | 0 <= j < |ps| ensures o + ps[j].lookahead in AnswerSet(t, n, o) {
        assert EntryAt(t, o, ps[j]);
      }
    }
    SubsetOfSameSize(Places(ps, o), AnswerSet(t, n, o));
    forall k | 0 <= k < |t| && Answers(t, o, k) ensures Has(ps, t[k].lookahead) {
      assert k in AnswerSet(t, n, o);
    }
  }

  // ---- Storing a set at an unused offset disturbs nothing ----

  lemma StoreShowsNew(t: seq<Slot>, o: int, ps: seq<Slot>)
    requires Distinct(ps) && SlotsFree(t, ps, o) && Unused(t, o)
    ensures Shows(Stored(t, o, ps), o, ps)
  {
    var r := Stored(t, o, ps);
    StoredAt(t, o, ps);
    forall k | 0 <= k < |r| && Answers(r, o, k) ensures Has(ps, r[k].lookahead) {
      assert !Answers(t, o, k);
    }
  }

  lemma StoreKeepsOld(t: seq<Slot>, o: int, ps: seq<Slot>, o': int, qs: seq<Slot>)
    requires Distinct(ps) && SlotsFree(t, ps, o) && o' != o && Shows(t, o', qs)
    requires forall j :: 0 <= j < |qs| ==> qs[j].lookahead >= 0
    ensures Shows(Stored(t, o, ps), o', qs)
  {
    var r := Stored(t, o, ps);
    StoredAt(t, o, ps);
    forall j | 0 <= j < |qs| ensures EntryAt(r, o', qs[j]) {
      assert EntryAt(t, o', qs[j]);
      assert !Has(ps, o' + qs[j].lookahead - o);
    }
    forall k | 0 <= k < |r| && Answers(r, o', k) ensures Has(qs, r[k].lookahead) {
      assert !Has(ps, k - o);
      assert Answers(t, o', k);
    }
  }

  lemma ShowsSame(t: seq<Slot>, r: seq<Slot>, o: int, ps: seq<Slot>)
    requires Shows(t, o, ps) && |t| <= |r| && r[..|t|] == t
    requires forall k :: |t| <= k < |r| ==> r[k].lookahead < 0
    ensures Shows(r, o, ps)
  {
    assert forall k :: 0 <= k < |t| ==> r[k] == t[k];
    forall j | 0 <= j < |ps| ensures EntryAt(r, o, ps[j]) {
      assert EntryAt(t, o, ps[j]);
    }
    forall k | 0 <= k < |r| && Answers(r, o, k) ensures Has(ps, r[k].lookahead) {
      assert Answers(t, o, k);
    }
  }

  lemma StoringDuplicate(t: seq<Slot>, o: int, ps: seq<Slot>)
    requires Distinct(ps)
    requires forall j :: 0 <= j < |ps| ==> 0 <= o + ps[j].lookahead < |t| && EntryAt(t, o, ps[j])
    ensures Stored(t, o, ps) == t
  {
    StoredAt(t, o, ps);
    var r := Stored(t, o, ps);
    forall k | 0 <= k < |t| ensures r[k] == t[k] {
      if Has(ps, k - o) {
        var j :| 0 <= j < |ps| && ps[j].lookahead == k - o;
        assert EntryAt(t, o, ps[j]) && EntryAt(r, o, ps[j]);
      }
    }
  }

  /** The hole search always succeeds, at most `mn + 1` slots past the used part, when
      `mn + mx` does not exceed the number of symbols. */
  lemma RoomySearchSucceeds(t: seq<Slot>, n: nat, ps: seq<Slot>, mn: int, mx: int, nsymbol: nat)
    requires n + nsymbol + 1 < |t| && forall k :: n <= k < |t| ==> t[k].lookahead < 0
    requires forall k :: 0 <= k < |t| ==> t[k].lookahead >= -1
    requires 0 <= mn && forall j :: 0 <= j < |ps| ==> mn <= ps[j].lookahead <= mx
    requires mn + mx <= nsymbol
    ensures n + mn + 1 < |t| - mx && Fits(t, n, ps, n + 1)
  {
  }

  /** A placement is intact: shown at its offset, and in range for all terminals if safe. */
  predicate Intact(t: seq<Slot>, n: nat, nterminal: nat, p: Placement) {
    && p.entries != []
    && (forall j :: 0 <= j < |p.entries| ==> 0 <= p.entries[j].lookahead)
    && Shows(t, p.offset, p.entries)
    && (p.safe ==> 0 <= p.offset && p.offset + nterminal < n)
  }

  /** The number of used slots after storing at index `i`. */
  function UsedAfter(n: nat, mn: int, mx: int, safe: bool, nterminal: nat, i: int): nat
    requires 0 <= i && mn <= mx
  {
    var n1 := if i + mx - mn + 1 > n then i + mx - mn + 1 else n;
    if safe && i + nterminal >= n1 then i + nterminal + 1 else n1
  }

  /** The shape of the table and of the transaction set on which an insertion works. */
  predicate Ready(t: seq<Slot>, n: nat, ps: seq<Slot>, mn: int, mx: int, nsymbol: nat) {
    && n + nsymbol + 1 < |t|
    && (forall k :: n <= k < |t| ==> t[k].lookahead == -1)
    && (forall k :: 0 <= k < |t| ==> -1 <= t[k].lookahead)
    && Distinct(ps) && ps != [] && 0 <= mn <= mx < nsymbol
    && Has(ps, mn)
    && (forall j :: 0 <= j < |ps| ==> mn <= ps[j].lookahead <= mx)
  }

  lemma FitIsUnused(t: seq<Slot>, n: nat, ps: seq<Slot>, o: int)
    requires n <= |t| && Fits(t, n, ps, o) && forall k :: n <= k < |t| ==> t[k].lookahead == -1
    ensures SlotsFree(t, ps, o) && Unused(t, o)
  {
    forall k | 0 <= k < |t| ensures !Answers(t, o, k) {
      assert k < n ==> t[k].lookahead != k - o;
    }
  }

  /** When the search gives up, the place it ends at is past every used slot and inside
      the array. */
  lemma GiveUpInBounds(t: seq<Slot>, n: nat, ps: seq<Slot>, mn: int, mx: int, nsymbol: nat, safe: bool)
    requires Ready(t, n, ps, mn, mx, nsymbol)
    requires !exists f :: (if safe then mn else 0) <= f < |t| - mx && FitsAt(t, n, ps, mn, f)
    ensures mn + mx > nsymbol
    ensures n < GiveUp(t, mn, mx, safe) && SlotsFree(t, ps, GiveUp(t, mn, mx, safe) - mn)
  {
    assert FitsAt(t, n, ps, mn, n + 1 + mn) by { PastEndFits(t, n, ps, mn, mx, nsymbol); }
  }

  /** The index settled on is always a legal place for the entries. */
  lemma ChosenInBounds(t: seq<Slot>, n: nat, ps: seq<Slot>, mn: int, mx: int, nsymbol: nat, safe: bool, i: int)
    requires Ready(t, n, ps, mn, mx, nsymbol) && Chosen(t, n, ps, mn, mx, safe, i)
    ensures (if safe then mn else 0) <= i && InBounds(t, ps, i - mn)
  {
    var end := if safe then mn else 0;
    if exists d :: end <= d < n && DuplicateAt(t, n, ps, mn, d) {
    } else if exists f :: end <= f < |t| - mx && FitsAt(t, n, ps, mn, f) {
    } else {
      GiveUpInBounds(t, n, ps, mn, mx, nsymbol, safe);
    }
  }

  /** If the offset is unused and its slots are free, the new set and all old ones are intact. */
  lemma StoreIntact(t: seq<Slot>, n: nat, ps: seq<Slot>, o: int, n': nat, nterminal: nat, p: Placement)
    requires Distinct(ps) && SlotsFree(t, ps, o) && Unused(t, o)
    requires Intact(t, n, nterminal, p) && n <= n'
    ensures Intact(Stored(t, o, ps), n', nterminal, p)
  {
    assert EntryAt(t, p.offset, p.entries[0]);
    assert Answers(t, p.offset, p.offset + p.entries[0].lookahead);
    StoreKeepsOld(t, o, ps, p.offset, p.entries);
  }

  predicate AllIntact(t: seq<Slot>, n: nat, nterminal: nat, placed: seq<Placement>) {
    forall p :: p in placed ==> Intact(t, n, nterminal, p)
  }

  lemma AddIntact(t: seq<Slot>, n: nat, n': nat, nterminal: nat, placed: seq<Placement>, p: Placement)
    requires AllIntact(t, n, nterminal, placed) && n <= n' && Intact(t, n', nterminal, p)
    ensures AllIntact(t, n', nterminal, placed + [p])
  {
    forall q | q in placed + [p] ensures Intact(t, n', nterminal, q) {
      assert q in placed ==> Intact(t, n, nterminal, q);
    }
  }

  /** What an insertion at index `i` makes of the table. */
  predicate IntactAfter(t: seq<Slot>, n: nat, ps: seq<Slot>, mn: int, mx: int, nterminal: nat,
                        safe: bool, i: int, placed: seq<Placement>)
    requires 0 <= i && mn <= mx && InBounds(t, ps, i - mn)
  {
    AllIntact(Stored(t, i - mn, ps), UsedAfter(n, mn, mx, safe, nterminal, i), nterminal,
              placed + [Placement(i - mn, ps, safe)])
  }

  lemma DuplicateIntact(t: seq<Slot>, n: nat, ps: seq<Slot>, mn: int, mx: int, nsymbol: nat, nterminal: nat,
                        safe: bool, i: int, placed: seq<Placement>)
    requires Ready(t, n, ps, mn, mx, nsymbol) && (if safe then mn else 0) <= i < n && Duplicate(t, n, ps, i - mn)
    requires AllIntact(t, n, nterminal, placed) && InBounds(t, ps, i - mn)
    ensures IntactAfter(t, n, ps, mn, mx, nterminal, safe, i, placed)
  {
    hide Intact, AllIntact, Shows, Stored;
    var p := Placement(i - mn, ps, safe);
    assert Intact(t, UsedAfter(n, mn, mx, safe, nterminal, i), nterminal, p) by {
      DuplicateShown(t, n, ps, mn, mx, nsymbol, nterminal, safe, i);
    }
    StoringDuplicate(t, i - mn, ps);
    AddIntact(t, n, UsedAfter(n, mn, mx, safe, nterminal, i), nterminal, placed, p);
  }

  lemma DuplicateShown(t: seq<Slot>, n: nat, ps: seq<Slot>, mn: int, mx: int, nsymbol: nat, nterminal: nat, safe: bool, i: int)
    requires Ready(t, n, ps, mn, mx, nsymbol) && (if safe then mn else 0) <= i < n && Duplicate(t, n, ps, i - mn)
    ensures Intact(t, UsedAfter(n, mn, mx, safe, nterminal, i), nterminal, Placement(i - mn, ps, safe))
  {
    hide Shows;
    DuplicateShows(t, n, ps, i - mn);
  }

  lemma FreshIntact(t: seq<Slot>, n: nat, ps: seq<Slot>, mn: int, mx: int, nsymbol: nat, nterminal: nat,
                    safe: bool, i: int, placed: seq<Placement>)
    requires Ready(t, n, ps, mn, mx, nsymbol) && (if safe then mn else 0) <= i
    requires SlotsFree(t, ps, i - mn) && InBounds(t, ps, i - mn)
    requires AllIntact(t, n, nterminal, placed)
    ensures IntactAfter(t, n, ps, mn, mx, nterminal, safe, i, placed) <==> Unused(t, i - mn)
  {
    hide Shows;
    var o, n' := i - mn, UsedAfter(n, mn, mx, safe, nterminal, i);
    if Unused(t, o) {
      StoreAllIntact(t, n, ps, o, n', nterminal, placed, safe);
    } else {
      NotShownWhenUsed(t, ps, o);
      var added := Placement(o, ps, safe);
      assert added in placed + [added] && !Intact(Stored(t, o, ps), n', nterminal, added);
    }
  }

  /** The chosen place holds a copy of the set already, or its slots are free; and in the latter
      case the set is placeable exactly if the offset is unused. */
  lemma ChosenCases(t: seq<Slot>, n: nat, ps: seq<Slot>, mn: int, mx: int, nsymbol: nat, safe: bool, i: int)
    requires Ready(t, n, ps, mn, mx, nsymbol) && Chosen(t, n, ps, mn, mx, safe, i)
    ensures || (Duplicate(t, n, ps, i - mn) && i < n && Placeable(t, n, ps, mn, mx, safe))
            || (SlotsFree(t, ps, i - mn) && (Placeable(t, n, ps, mn, mx, safe) <==> Unused(t, i - mn)))
  {
    hide Unused, SlotsFree, Fits, Duplicate;
    var end := if safe then mn else 0;
    if exists d :: end <= d < n && DuplicateAt(t, n, ps, mn, d) {
      assert DuplicateAt(t, n, ps, mn, i);
    } else if exists f :: end <= f < |t| - mx && FitsAt(t, n, ps, mn, f) {
      assert FitsAt(t, n, ps, mn, i);
      FitIsUnused(t, n, ps, i - mn);
    } else {
      GiveUpInBounds(t, n, ps, mn, mx, nsymbol, safe);
    }
  }

  /** An insertion keeps everything intact exactly when the set was placeable. */
  lemma InsertIntact(t: seq<Slot>, n: nat, ps: seq<Slot>, mn: int, mx: int, nsymbol: nat, nterminal: nat,
                     safe: bool, i: int, placed: seq<Placement>)
    requires Ready(t, n, ps, mn, mx, nsymbol) && Chosen(t, n, ps, mn, mx, safe, i)
    requires AllIntact(t, n, nterminal, placed)
    requires (if safe then mn else 0) <= i && InBounds(t, ps, i - mn)
    ensures IntactAfter(t, n, ps, mn, mx, nterminal, safe, i, placed) <==> Placeable(t, n, ps, mn, mx, safe)
  {
    ChosenCases(t, n, ps, mn, mx, nsymbol, safe, i);
    hide Chosen, Placeable, AllIntact, IntactAfter, InBounds, Unused, SlotsFree, Duplicate;
    if Duplicate(t, n, ps, i - mn) && i < n {
      DuplicateIntact(t, n, ps, mn, mx, nsymbol, nterminal, safe, i, placed);
    } else {
      FreshIntact(t, n, ps, mn, mx, nsymbol, nterminal, safe, i, placed);
    }
  }

  lemma StoreAllIntact(t: seq<Slot>, n: nat, ps: seq<Slot>, o: int, n': nat, nterminal: nat,
                       placed: seq<Placement>, safe: bool)
    requires Distinct(ps) && SlotsFree(t, ps, o) && Unused(t, o) && ps != []
    requires forall j :: 0 <= j < |ps| ==> 0 <= ps[j].lookahead
    requires AllIntact(t, n, nterminal, placed)
    requires n <= n' && (safe ==> 0 <= o && o + nterminal < n')
    ensures AllIntact(Stored(t, o, ps), n', nterminal, placed + [Placement(o, ps, safe)])
  {
    StoreShowsNew(t, o, ps);
    forall p | p in placed ensures Intact(Stored(t, o, ps), n', nterminal, p) {
      StoreIntact(t, n, ps, o, n', nterminal, p);
    }
  }

  lemma NotShownWhenUsed(t: seq<Slot>, ps: seq<Slot>, o: int)
    requires Distinct(ps) && SlotsFree(t, ps, o) && !Unused(t, o)
    ensures !Shows(Stored(t, o, ps), o, ps)
  {
    StoredAt(t, o, ps);
    var k :| 0 <= k < |t| && Answers(t, o, k);
    assert !Has(ps, k - o);
    assert Answers(Stored(t, o, ps), o, k);
  }

  // ---- What no insertion can break ----

  /** The entries of a placement are in the table; a safe placement is in range of the used part,
      and looking up a terminal in it stays inside the allocated slots. */
  predicate HeldBy(t: seq<Slot>, n: nat, nterminal: nat, p: Placement) {
    && p.entries != []
    && (forall j :: 0 <= j < |p.entries| ==> 0 <= p.entries[j].lookahead && EntryAt(t, p.offset, p.entries[j]))
    && (p.safe ==> 0 <= p.offset && p.offset + nterminal < n && p.offset + nterminal <= |t|)
  }

  predicate AllHeld(t: seq<Slot>, n: nat, nterminal: nat, placed: seq<Placement>) {
    forall p :: p in placed ==> HeldBy(t, n, nterminal, p)
  }

  /** A lookup of a terminal in a safe set hits only an entry of that set. */
  predicate TokensExact(t: seq<Slot>, nterminal: nat, p: Placement) {
    p.safe ==> forall k :: 0 <= k < |t| && Answers(t, p.offset, k) && t[k].lookahead < nterminal ==> Has(p.entries, t[k].lookahead)
  }

  predicate AllTokensExact(t: seq<Slot>, nterminal: nat, placed: seq<Placement>) {
    forall p :: p in placed ==> TokensExact(t, nterminal, p)
  }

  /** Storing touches no slot that is in use, except with what it already holds. */
  lemma OccupiedKept(t: seq<Slot>, n: nat, ps: seq<Slot>, o: int)
    requires Distinct(ps) && InBounds(t, ps, o) && n <= |t|
    requires Duplicate(t, n, ps, o) || SlotsFree(t, ps, o)
    ensures forall k :: 0 <= k < |t| && t[k].lookahead >= 0 ==> Stored(t, o, ps)[k] == t[k]
  {
    if Duplicate(t, n, ps, o) {
      StoringDuplicate(t, o, ps);
    } else {
      StoredAt(t, o, ps);
    }
  }

  lemma StoreHeld(t: seq<Slot>, n: nat, ps: seq<Slot>, o: int, n': nat, nterminal: nat, placed: seq<Placement>)
    requires InBounds(t, ps, o) && n <= n' && AllHeld(t, n, nterminal, placed)
    requires forall k :: 0 <= k < |t| && t[k].lookahead >= 0 ==> Stored(t, o, ps)[k] == t[k]
    ensures AllHeld(Stored(t, o, ps), n', nterminal, placed)
  {
    hide Stored, InBounds;
    forall p | p in placed ensures HeldBy(Stored(t, o, ps), n', nterminal, p) {
      assert HeldBy(t, n, nterminal, p);
    }
  }

  /** The offset settled on lies at most one slot past the used part: the place there fits, so the
      search never goes further. */
  lemma ChosenNear(t: seq<Slot>, n: nat, ps: seq<Slot>, mn: int, mx: int, nsymbol: nat, safe: bool, i: int)
    requires Ready(t, n, ps, mn, mx, nsymbol) && Chosen(t, n, ps, mn, mx, safe, i)
    ensures i - mn <= n + 1
  {
    assert FitsAt(t, n, ps, mn, n + 1 + mn) by { PastEndFits(t, n, ps, mn, mx, nsymbol); }
    hide DuplicateAt, FitsAt;
  }

  lemma PastEndFits(t: seq<Slot>, n: nat, ps: seq<Slot>, mn: int, mx: int, nsymbol: nat)
    requires Ready(t, n, ps, mn, mx, nsymbol)
    ensures Fits(t, n, ps, n + 1)
  {
  }

  lemma InsertHeld(t: seq<Slot>, n: nat, ps: seq<Slot>, mn: int, mx: int, nsymbol: nat, nterminal: nat,
                   safe: bool, i: int, placed: seq<Placement>)
    requires Ready(t, n, ps, mn, mx, nsymbol) && Chosen(t, n, ps, mn, mx, safe, i) && nterminal <= nsymbol
    requires (if safe then mn else 0) <= i && InBounds(t, ps, i - mn) && AllHeld(t, n, nterminal, placed)
    ensures AllHeld(Stored(t, i - mn, ps), UsedAfter(n, mn, mx, safe, nterminal, i), nterminal,
                    placed + [Placement(i - mn, ps, safe)])
  {
    hide Chosen, Placeable, Stored, SlotsFree, Duplicate, Unused, InBounds, Distinct, HeldBy, UsedAfter, AllHeld;
    ChosenCases(t, n, ps, mn, mx, nsymbol, safe, i);
    ChosenNear(t, n, ps, mn, mx, nsymbol, safe, i);
    var o, n' := i - mn, UsedAfter(n, mn, mx, safe, nterminal, i);
    OccupiedKept(t, n, ps, o);
    StoredEntries(t, ps, o);
    NewHeld(t, n, ps, mn, mx, nsymbol, nterminal, safe, i);
    StoreHeld(t, n, ps, o, n', nterminal, placed);
    HeldMore(Stored(t, o, ps), n', nterminal, placed, Placement(o, ps, safe));
  }

  lemma HeldMore(t: seq<Slot>, n: nat, nterminal: nat, placed: seq<Placement>, p: Placement)
    requires AllHeld(t, n, nterminal, placed) && HeldBy(t, n, nterminal, p)
    ensures AllHeld(t, n, nterminal, placed + [p])
  {
    hide HeldBy;
  }

  lemma NewHeld(t: seq<Slot>, n: nat, ps: seq<Slot>, mn: int, mx: int, nsymbol: nat, nterminal: nat, safe: bool, i: int)
    requires Ready(t, n, ps, mn, mx, nsymbol) && nterminal <= nsymbol && i - mn <= n + 1
    requires (if safe then mn else 0) <= i && InBounds(t, ps, i - mn)
    requires forall j :: 0 <= j < |ps| ==> EntryAt(Stored(t, i - mn, ps), i - mn, ps[j])
    ensures HeldBy(Stored(t, i - mn, ps), UsedAfter(n, mn, mx, safe, nterminal, i), nterminal, Placement(i - mn, ps, safe))
    ensures n <= UsedAfter(n, mn, mx, safe, nterminal, i)
  {
    hide Stored, Distinct, InBounds;
  }

  lemma StoredEntries(t: seq<Slot>, ps: seq<Slot>, o: int)
    requires Distinct(ps) && InBounds(t, ps, o)
    ensures forall j :: 0 <= j < |ps| ==> EntryAt(Stored(t, o, ps), o, ps[j])
  {
    StoredAt(t, o, ps);
  }

  /** Terminal lookups stay exact if a terminal set is placeable and a nonterminal set is just that. */
  lemma InsertTokensExact(t: seq<Slot>, n: nat, ps: seq<Slot>, mn: int, mx: int, nsymbol: nat, nterminal: nat,
                          safe: bool, i: int, placed: seq<Placement>)
    requires Ready(t, n, ps, mn, mx, nsymbol) && Chosen(t, n, ps, mn, mx, safe, i) && InBounds(t, ps, i - mn)
    requires AllHeld(t, n, nterminal, placed) && AllTokensExact(t, nterminal, placed)
    requires if safe then Placeable(t, n, ps, mn, mx, safe) else NonterminalsOnly(ps, nterminal)
    ensures AllTokensExact(Stored(t, i - mn, ps), nterminal, placed + [Placement(i - mn, ps, safe)])
  {
    var o := i - mn;
    ChosenCases(t, n, ps, mn, mx, nsymbol, safe, i);
    hide Chosen, Placeable, Unused, InBounds, SlotsFree, AllHeld;
    if Duplicate(t, n, ps, o) {
      DuplicateShows(t, n, ps, o);
      StoringDuplicate(t, o, ps);
    } else {
      StoreTokensExact(t, n, ps, o, nterminal, safe, placed);
    }
  }

  lemma StoreTokensExact(t: seq<Slot>, n: nat, ps: seq<Slot>, o: int, nterminal: nat, safe: bool, placed: seq<Placement>)
    requires Distinct(ps) && SlotsFree(t, ps, o)
    requires AllHeld(t, n, nterminal, placed) && AllTokensExact(t, nterminal, placed)
    requires Unused(t, o) || (!safe && NonterminalsOnly(ps, nterminal))
    ensures AllTokensExact(Stored(t, o, ps), nterminal, placed + [Placement(o, ps, safe)])
  {
    var r := Stored(t, o, ps);
    if Unused(t, o) { StoreShowsNew(t, o, ps); }
    hide Stored, SlotsFree, Distinct, HeldBy, NonterminalsOnly, TokensExact, Unused, Answers, Has;
    forall p | p in placed ensures TokensExact(r, nterminal, p) {
      assert HeldBy(t, n, nterminal, p) && TokensExact(t, nterminal, p);
      StoreKeepsExact(t, n, ps, o, nterminal, p);
    }
    assert TokensExact(r, nterminal, Placement(o, ps, safe)) by { ShownIsExact(t, ps, o, nterminal, safe); }
  }

  lemma ShownIsExact(t: seq<Slot>, ps: seq<Slot>, o: int, nterminal: nat, safe: bool)
    requires InBounds(t, ps, o) && (safe ==> Shows(Stored(t, o, ps), o, ps))
    ensures TokensExact(Stored(t, o, ps), nterminal, Placement(o, ps, safe))
  {
    hide Stored;
  }

  /** An earlier safe set does not answer to what is stored now. */
  lemma StoreKeepsExact(t: seq<Slot>, n: nat, ps: seq<Slot>, o: int, nterminal: nat, p: Placement)
    requires Distinct(ps) && SlotsFree(t, ps, o) && HeldBy(t, n, nterminal, p) && TokensExact(t, nterminal, p)
    requires Unused(t, o) || NonterminalsOnly(ps, nterminal)
    ensures TokensExact(Stored(t, o, ps), nterminal, p)
  {
    assert InBounds(t, ps, o);
    hide Stored, SlotsFree, Distinct, Has, NonterminalsOnly, InBounds;
    var r := Stored(t, o, ps);
    if p.safe {
      assert EntryAt(t, p.offset, p.entries[0]) && Answers(t, p.offset, p.offset + p.entries[0].lookahead);
      forall k | 0 <= k < |r| && Answers(r, p.offset, k) && r[k].lookahead < nterminal ensures Has(p.entries, r[k].lookahead) {
        StoredSlot(t, o, ps, k);
        NoTerminalHere(ps, k - o, nterminal);
        assert Answers(t, p.offset, k);
      }
    }
  }

  /** A slot after storing: as before, or one of the entries. */
  lemma StoredSlot(t: seq<Slot>, o: int, ps: seq<Slot>, k: nat)
    requires Distinct(ps) && SlotsFree(t, ps, o) && k < |t|
    ensures if Has(ps, k - o) then Stored(t, o, ps)[k].lookahead == k - o else Stored(t, o, ps)[k] == t[k]
  {
    StoredAt(t, o, ps);
  }

  lemma NoTerminalHere(ps: seq<Slot>, x: int, nterminal: nat)
    ensures x < nterminal && NonterminalsOnly(ps, nterminal) ==> !Has(ps, x)
  {
  }

  lemma EnlargedHeld(t0: seq<Slot>, n: nat, nsymbol: nat, nterminal: nat, placed: seq<Placement>)
    requires AllHeld(t0, n, nterminal, placed)
    ensures AllHeld(Enlarged(t0, n, nsymbol), n, nterminal, placed)
    ensures AllTokensExact(t0, nterminal, placed) ==> AllTokensExact(Enlarged(t0, n, nsymbol), nterminal, placed)
  {
    var t := Enlarged(t0, n, nsymbol);
    assert forall k :: 0 <= k < |t0| ==> t[k] == t0[k] by {
      assert forall k :: 0 <= k < |t0| ==> t[..|t0|][k] == t[k];
    }
    hide Enlarged;
    forall p | p in placed ensures HeldBy(t, n, nterminal, p) {
      assert HeldBy(t0, n, nterminal, p);
    }
    if AllTokensExact(t0, nterminal, placed) {
      forall p | p in placed ensures TokensExact(t, nterminal, p) {
        assert TokensExact(t0, nterminal, p);
        assert forall k :: 0 <= k < |t| && Answers(t, p.offset, k) ==> k < |t0| && Answers(t0, p.offset, k);
      }
    }
  }

  // ---- Used as the generator uses it, the table never runs out of room for terminals ----

  predicate TerminalsOnly(ps: seq<Slot>, nterminal: nat) {
    forall j :: 0 <= j < |ps| ==> ps[j].lookahead < nterminal
  }

  /** Terminals go into safe sets, everything else into unsafe ones. */
  predicate ProperSet(ps: seq<Slot>, nterminal: nat, safe: bool) {
    if safe then TerminalsOnly(ps, nterminal) else NonterminalsOnly(ps, nterminal)
  }

  /** Every terminal entry belongs to an offset that is in range for all terminals. */
  predicate SafeSlots(t: seq<Slot>, n: nat, nterminal: nat) {
    forall k :: 0 <= k < |t| && 0 <= t[k].lookahead < nterminal ==> k - t[k].lookahead + nterminal < n
  }

  /** Where the search gives up on a terminal set, no earlier set has its offset. */
  lemma GiveUpUnused(t: seq<Slot>, n: nat, ps: seq<Slot>, mn: int, mx: int, nsymbol: nat, nterminal: nat)
    requires Ready(t, n, ps, mn, mx, nsymbol) && SafeSlots(t, n, nterminal) && mx < nterminal <= nsymbol
    ensures Unused(t, GiveUp(t, mn, mx, true) - mn)
  {
    var o := GiveUp(t, mn, mx, true) - mn;
    forall k | 0 <= k < |t| ensures !Answers(t, o, k) {
      assert t[k].lookahead >= 0 ==> k < n;
    }
  }

  /** A terminal set is always placeable. */
  lemma TerminalsPlaceable(t: seq<Slot>, n: nat, ps: seq<Slot>, mn: int, mx: int, nsymbol: nat, nterminal: nat)
    requires Ready(t, n, ps, mn, mx, nsymbol) && SafeSlots(t, n, nterminal) && mx < nterminal <= nsymbol
    ensures Placeable(t, n, ps, mn, mx, true)
  {
    GiveUpUnused(t, n, ps, mn, mx, nsymbol, nterminal);
    hide Unused, DuplicateAt, FitsAt;
  }

  lemma EnlargedSafe(t0: seq<Slot>, n: nat, nsymbol: nat, nterminal: nat)
    requires SafeSlots(t0, n, nterminal)
    ensures SafeSlots(Enlarged(t0, n, nsymbol), n, nterminal)
  {
    var t := Enlarged(t0, n, nsymbol);
    assert forall k :: 0 <= k < |t0| ==> t[k] == t0[k] by {
      assert forall k :: 0 <= k < |t0| ==> t[..|t0|][k] == t[k];
    }
  }

  lemma StoredSafe(t: seq<Slot>, n: nat, ps: seq<Slot>, mn: int, mx: int, nsymbol: nat, nterminal: nat, safe: bool, i: int)
    requires Ready(t, n, ps, mn, mx, nsymbol) && SafeSlots(t, n, nterminal) && 0 <= i && InBounds(t, ps, i - mn)
    requires ProperSet(ps, nterminal, safe)
    ensures SafeSlots(Stored(t, i - mn, ps), UsedAfter(n, mn, mx, safe, nterminal, i), nterminal)
  {
    var r, n' := Stored(t, i - mn, ps), UsedAfter(n, mn, mx, safe, nterminal, i);
    StoredAt(t, i - mn, ps);
    hide Stored, Distinct, InBounds, NonterminalsOnly, TerminalsOnly;
    forall k | 0 <= k < |r| && 0 <= r[k].lookahead < nterminal ensures k - r[k].lookahead + nterminal < n' {
      if Has(ps, k - (i - mn)) {
        assert r[k].lookahead == k - (i - mn);
        if !safe { NoTerminalHere(ps, k - (i - mn), nterminal); }
      }
    }
  }

  /** Terminal sets fit and terminal lookups stay exact, with no condition on the symbols. */
  lemma InsertProper(t0: seq<Slot>, n: nat, ps: seq<Slot>, mn: int, mx: int, nsymbol: nat, nterminal: nat, safe: bool, i: int)
    requires Ready(Enlarged(t0, n, nsymbol), n, ps, mn, mx, nsymbol) && SafeSlots(t0, n, nterminal) && nterminal <= nsymbol
    requires 0 <= i && InBounds(Enlarged(t0, n, nsymbol), ps, i - mn) && ProperSet(ps, nterminal, safe)
    requires Has(ps, mx)
    ensures safe ==> Placeable(Enlarged(t0, n, nsymbol), n, ps, mn, mx, true)
    ensures SafeSlots(Stored(Enlarged(t0, n, nsymbol), i - mn, ps), UsedAfter(n, mn, mx, safe, nterminal, i), nterminal)
  {
    var t := Enlarged(t0, n, nsymbol);
    EnlargedSafe(t0, n, nsymbol, nterminal);
    hide Enlarged, SafeSlots, Placeable, Stored, InBounds;
    StoredSafe(t, n, ps, mn, mx, nsymbol, nterminal, safe, i);
    if safe { TerminalsPlaceable(t, n, ps, mn, mx, nsymbol, nterminal); }
  }

  /** The used part stays inside the allocation, unless a safe set near its end reaches out. */
  lemma UsedInside(t: seq<Slot>, n: nat, ps: seq<Slot>, mn: int, mx: int, nsymbol: nat, nterminal: nat, safe: bool, i: int)
    requires Ready(t, n, ps, mn, mx, nsymbol) && 0 <= i && InBounds(t, ps, i - mn) && Has(ps, mx)
    ensures UsedAfter(n, mn, mx, safe, nterminal, i) <= |t| <==> !safe || i + nterminal + 1 <= |t|
  {
    var j :| 0 <= j < |ps| && ps[j].lookahead == mx;
    assert 0 <= i - mn + ps[j].lookahead < |t|;
  }

  lemma EnlargedReady(t0: seq<Slot>, n: nat, ps: seq<Slot>, mn: int, mnAction: int, mx: int, nsymbol: nat)
    requires forall k :: 0 <= k < |t0| ==> -1 <= t0[k].lookahead < nsymbol
    requires forall k :: n <= k < |t0| ==> t0[k].lookahead == -1
    requires Distinct(ps) && ps != [] && IsMin(ps, mn, mnAction) && IsMax(ps, mx)
    requires forall j :: 0 <= j < |ps| ==> 0 <= ps[j].lookahead < nsymbol
    ensures Ready(Enlarged(t0, n, nsymbol), n, ps, mn, mx, nsymbol)
  {
    var t := Enlarged(t0, n, nsymbol);
    assert forall k :: 0 <= k < |t0| ==> t[k] == t0[k] by {
      assert forall k :: 0 <= k < |t0| ==> t[..|t0|][k] == t[k];
    }
    var j :| 0 <= j < |ps| && ps[j] == Slot(mn, mnAction);
    assert Has(ps, mn);
  }

  /** Everything an insertion needs to know about the values it works on. */
  lemma InsertSummary(t0: seq<Slot>, n: nat, ps: seq<Slot>, mn: int, mx: int, nsymbol: nat, nterminal: nat,
                      safe: bool, i: int, placed: seq<Placement>)
    requires Ready(Enlarged(t0, n, nsymbol), n, ps, mn, mx, nsymbol)
    requires Chosen(Enlarged(t0, n, nsymbol), n, ps, mn, mx, safe, i)
    requires forall k :: 0 <= k < |t0| ==> t0[k].lookahead < nsymbol
    requires AllHeld(t0, n, nterminal, placed) && nterminal <= nsymbol
    ensures 0 <= i && mn <= mx && InBounds(Enlarged(t0, n, nsymbol), ps, i - mn)
    ensures var t := Enlarged(t0, n, nsymbol);
      var r, n' := Stored(t, i - mn, ps), UsedAfter(n, mn, mx, safe, nterminal, i);
      var placed' := placed + [Placement(i - mn, ps, safe)];
      && (forall k :: 0 <= k < |r| ==> -1 <= r[k].lookahead < nsymbol)
      && (forall k :: n' <= k < |r| ==> r[k].lookahead == -1)
      && AllHeld(r, n', nterminal, placed')
      && (AllIntact(t0, n, nterminal, placed) ==> (AllIntact(r, n', nterminal, placed') <==> Placeable(t, n, ps, mn, mx, safe)))
      && (mn + mx <= nsymbol ==> Placeable(t, n, ps, mn, mx, safe))
      && (AllTokensExact(t0, nterminal, placed) && (if safe then Placeable(t, n, ps, mn, mx, safe) else NonterminalsOnly(ps, nterminal))
          ==> AllTokensExact(r, nterminal, placed'))
  {
    hide Placeable, Chosen, AllIntact, InBounds, Stored, UsedAfter, AllHeld, AllTokensExact;
    var t := Enlarged(t0, n, nsymbol);
    assert forall k :: 0 <= k < |t0| ==> t[..|t0|][k] == t[k];
    ChosenInBounds(t, n, ps, mn, mx, nsymbol, safe, i);
    EnlargedHeld(t0, n, nsymbol, nterminal, placed);
    InsertHeld(t, n, ps, mn, mx, nsymbol, nterminal, safe, i, placed);
    if AllIntact(t0, n, nterminal, placed) {
      EnlargedIntact(t0, n, nsymbol, nterminal, placed);
      InsertIntact(t, n, ps, mn, mx, nsymbol, nterminal, safe, i, placed);
    }
    RoomyPlaceable(t, n, ps, mn, mx, nsymbol, safe);
    StoredSlots(t, n, ps, mn, mx, nsymbol, nterminal, safe, i);
    if AllTokensExact(t0, nterminal, placed) && (if safe then Placeable(t, n, ps, mn, mx, safe) else NonterminalsOnly(ps, nterminal)) {
      InsertTokensExact(t, n, ps, mn, mx, nsymbol, nterminal, safe, i, placed);
    }
  }

  predicate NonterminalsOnly(ps: seq<Slot>, nterminal: nat) {
    forall j :: 0 <= j < |ps| ==> ps[j].lookahead >= nterminal
  }

  lemma EnlargedIntact(t0: seq<Slot>, n: nat, nsymbol: nat, nterminal: nat, placed: seq<Placement>)
    requires AllIntact(t0, n, nterminal, placed)
    ensures AllIntact(Enlarged(t0, n, nsymbol), n, nterminal, placed)
  {
    forall p | p in placed ensures Intact(Enlarged(t0, n, nsymbol), n, nterminal, p) {
      assert Intact(t0, n, nterminal, p);
      ShowsSame(t0, Enlarged(t0, n, nsymbol), p.offset, p.entries);
    }
  }

  lemma RoomyPlaceable(t: seq<Slot>, n: nat, ps: seq<Slot>, mn: int, mx: int, nsymbol: nat, safe: bool)
    requires Ready(t, n, ps, mn, mx, nsymbol)
    ensures mn + mx <= nsymbol ==> Placeable(t, n, ps, mn, mx, safe)
  {
    if mn + mx <= nsymbol {
      RoomySearchSucceeds(t, n, ps, mn, mx, nsymbol);
      assert FitsAt(t, n, ps, mn, n + mn + 1);
    }
  }

  lemma StoredSlots(t: seq<Slot>, n: nat, ps: seq<Slot>, mn: int, mx: int, nsymbol: nat, nterminal: nat, safe: bool, i: int)
    requires Ready(t, n, ps, mn, mx, nsymbol) && 0 <= i
    requires forall k :: 0 <= k < |t| ==> t[k].lookahead < nsymbol
    requires InBounds(t, ps, i - mn)
    ensures var r, n' := Stored(t, i - mn, ps), UsedAfter(n, mn, mx, safe, nterminal, i);
      && (forall k :: 0 <= k < |r| ==> -1 <= r[k].lookahead < nsymbol)
      && (forall k :: n' <= k < |r| ==> r[k].lookahead == -1)
  {
    var r, n' := Stored(t, i - mn, ps), UsedAfter(n, mn, mx, safe, nterminal, i);
    StoredAt(t, i - mn, ps);
    forall k | 0 <= k < |r|
      ensures -1 <= r[k].lookahead < nsymbol && (n' <= k ==> r[k].lookahead == -1)
    {
      if Has(ps, k - (i - mn)) {
        assert r[k].lookahead == k - (i - mn);
      }
    }
  }

  /** The two extra facts about an insertion: proper use, and the end of the used part. */
  lemma InsertUse(t0: seq<Slot>, n: nat, ps: seq<Slot>, mn: int, mx: int, nsymbol: nat, nterminal: nat, safe: bool, i: int)
    requires Ready(Enlarged(t0, n, nsymbol), n, ps, mn, mx, nsymbol) && nterminal <= nsymbol && IsMax(ps, mx)
    requires 0 <= i && mn <= mx && InBounds(Enlarged(t0, n, nsymbol), ps, i - mn)
    ensures SafeSlots(t0, n, nterminal) && ProperSet(ps, nterminal, safe) ==>
      && (if safe then Placeable(Enlarged(t0, n, nsymbol), n, ps, mn, mx, true) else NonterminalsOnly(ps, nterminal))
      && SafeSlots(Stored(Enlarged(t0, n, nsymbol), i - mn, ps), UsedAfter(n, mn, mx, safe, nterminal, i), nterminal)
    ensures UsedAfter(n, mn, mx, safe, nterminal, i) <= |Enlarged(t0, n, nsymbol)| <==> !safe || i + nterminal < |Enlarged(t0, n, nsymbol)|
  {
    hide Enlarged, SafeSlots, Placeable, Stored, InBounds, Ready, UsedAfter;
    UsedInside(Enlarged(t0, n, nsymbol), n, ps, mn, mx, nsymbol, nterminal, safe, i);
    if SafeSlots(t0, n, nterminal) && ProperSet(ps, nterminal, safe) {
      InsertProper(t0, n, ps, mn, mx, nsymbol, nterminal, safe, i);
    }
  }

  // ---- The table object ----

  class ActTab {
    const nsymbol: nat
    const nterminal: nat
    var nAction: nat                 // number of used slots
    var aAction: array<Slot>         // the table under construction
    var aLookahead: seq<Slot>        // the transaction set being collected
    var mnLookahead: int
    var mnAction: int
    var mxLookahead: int
    ghost var placed: seq<Placement>

    constructor (nsymbol: nat, nterminal: nat)
      requires nterminal <= nsymbol
      ensures Valid() && fresh(aAction) && Faithful() && Tokens() && Proper()
      ensures this.nsymbol == nsymbol && this.nterminal == nterminal
      ensures nAction == 0 && aAction.Length == 0 && aLookahead == [] && placed == []
    {
      this.nsymbol, this.nterminal := nsymbol, nterminal;
      nAction, aLookahead, placed := 0, [], [];
      aAction := new Slot[0];
      mnLookahead, mnAction, mxLookahead := 0, 0, 0;
    }

    ghost predicate Valid()
      reads this, aAction
    {
      && nterminal <= nsymbol
      && (forall k :: 0 <= k < aAction.Length ==> -1 <= aAction[k].lookahead < nsymbol)
      && (forall k :: nAction <= k < aAction.Length ==> aAction[k].lookahead == -1)
      && (forall j :: 0 <= j < |aLookahead| ==> 0 <= aLookahead[j].lookahead < nsymbol)
      && (aLookahead != [] ==> IsMin(aLookahead, mnLookahead, mnAction) && IsMax(aLookahead, mxLookahead))
      && AllHeld(aAction[..], nAction, nterminal, placed)
    }

    /** Lookups of terminals in safe sets are exact. */
    ghost predicate Tokens()
      reads this, aAction
    {
      AllTokensExact(aAction[..], nterminal, placed)
    }

    /** So far terminals went into safe sets only. */
    ghost predicate Proper()
      reads this, aAction
    {
      SafeSlots(aAction[..], nAction, nterminal)
    }

    /** Every inserted set is shown at its offset, and lookups of any terminal in a safe
        set stay inside the used part of the table. */
    ghost predicate Faithful()
      reads this, aAction
    {
      AllIntact(aAction[..], nAction, nterminal, placed)
    }

    /** `acttab_action` */
    method Action(lookahead: nat, action: int)
      requires Valid() && lookahead < nsymbol
      modifies this`aLookahead, this`mnLookahead, this`mnAction, this`mxLookahead
      ensures Valid() && aLookahead == old(aLookahead) + [Slot(lookahead, action)]
    {
      if aLookahead == [] {
        mxLookahead, mnLookahead, mnAction := lookahead, lookahead, action;
      } else {
        if mxLookahead < lookahead { mxLookahead := lookahead; }
        if mnLookahead > lookahead { mnLookahead, mnAction := lookahead, action; }
      }
      ghost var ps := aLookahead;
      aLookahead := aLookahead + [Slot(lookahead, action)];
      assert aLookahead[|ps|] == Slot(lookahead, action);
      assert forall j :: 0 <= j < |ps| ==> aLookahead[j] == ps[j];
    }

    /** The duplicate test of the first search loop. */
    method TestDuplicate(i: nat) returns (same: bool)
      requires Valid() && aLookahead != [] && i < nAction <= aAction.Length
      ensures same <==> DuplicateAt(aAction[..], nAction, aLookahead, mnLookahead, i)
    {
      ghost var o := i - mnLookahead;
      if aAction[i] != Slot(mnLookahead, mnAction) {
        assert Slot(mnLookahead, mnAction) in aLookahead;
        return false;
      }
      for j := 0 to |aLookahead|
        invariant forall m :: 0 <= m < j ==> o + aLookahead[m].lookahead < nAction && EntryAt(aAction[..], o, aLookahead[m])
      {
        var k := aLookahead[j].lookahead - mnLookahead + i;
        if k >= nAction || aLookahead[j] != aAction[k] {
          return false;
        }
      }
      var n := 0;
      for j := 0 to nAction
        invariant n == AnswerCount(aAction[..], j, o)
      {
        if aAction[j].lookahead >= 0 && aAction[j].lookahead == j + mnLookahead - i { n := n + 1; }
      }
      return n == |aLookahead|;
    }

    /** The fit test of the hole search. */
    method TestFit(i: nat) returns (fits: bool)
      requires Valid() && aLookahead != [] && nAction <= aAction.Length && i < aAction.Length - mxLookahead
      ensures fits <==> FitsAt(aAction[..], nAction, aLookahead, mnLookahead, i)
    {
      ghost var o := i - mnLookahead;
      for j := 0 to |aLookahead|
        invariant forall m :: 0 <= m < j ==>
          0 <= o + aLookahead[m].lookahead < aAction.Length && aAction[o + aLookahead[m].lookahead].lookahead < 0
      {
        var k := aLookahead[j].lookahead - mnLookahead + i;
        if aAction[k].lookahead >= 0 { return false; }
      }
      for j := 0 to nAction
        invariant forall k :: 0 <= k < j ==> aAction[k].lookahead != k - o
      {
        if aAction[j].lookahead == j + mnLookahead - i { return false; }
      }
      return true;
    }

    /** Reallocation at the start of `acttab_insert`. */
    method Enlarge()
      requires Valid()
      modifies this`aAction
      ensures Valid() && (aAction == old(aAction) || fresh(aAction))
      ensures aAction[..] == Enlarged(old(aAction[..]), nAction, nsymbol)
    {
      if nAction + nsymbol + 1 >= aAction.Length {
        var old_ := aAction;
        var a := new Slot[old_.Length + nAction + nsymbol + 21](_ => Slot(-1, -1));
        forall k | 0 <= k < old_.Length { a[k] := old_[k]; }
        aAction := a;
        assert a[..] == old_[..] + seq(nAction + nsymbol + 21, _ => Slot(-1, -1));
      }
    }

    /** The first search of `acttab_insert`, downwards, for a copy of the set. */
    method FindDuplicate(end: nat) returns (i: int)
      requires Valid() && aLookahead != [] && nAction <= aAction.Length
      ensures i < nAction && (i >= end ==> DuplicateAt(aAction[..], nAction, aLookahead, mnLookahead, i))
      ensures forall d :: i < d < nAction && end <= d ==> !DuplicateAt(aAction[..], nAction, aLookahead, mnLookahead, d)
    {
      i := nAction - 1;
      while i >= end
        invariant i < nAction
        invariant forall d :: i < d < nAction ==> !DuplicateAt(aAction[..], nAction, aLookahead, mnLookahead, d)
      {
        var same := TestDuplicate(i);
        if same { return; }
        i := i - 1;
      }
    }

    /** The second search, upwards, for a hole that fits. */
    method FindHole(end: nat) returns (i: nat)
      requires Valid() && aLookahead != [] && nAction <= aAction.Length
      ensures end <= i && forall f :: end <= f < i ==> !FitsAt(aAction[..], nAction, aLookahead, mnLookahead, f)
      ensures i < aAction.Length - mxLookahead ==> FitsAt(aAction[..], nAction, aLookahead, mnLookahead, i)
      ensures i <= if end > aAction.Length - mxLookahead then end else aAction.Length - mxLookahead
    {
      i := end;
      while i < aAction.Length - mxLookahead
        invariant end <= i <= if end > aAction.Length - mxLookahead then end else aAction.Length - mxLookahead
        invariant forall f :: end <= f < i ==> !FitsAt(aAction[..], nAction, aLookahead, mnLookahead, f)
      {
        var fits := TestFit(i);
        if fits { return; }
        i := i + 1;
      }
    }

    method Choose(makeItSafe: bool) returns (i: int)
      requires Valid() && aLookahead != [] && nAction <= aAction.Length && mxLookahead <= aAction.Length
      ensures Chosen(aAction[..], nAction, aLookahead, mnLookahead, mxLookahead, makeItSafe, i)
    {
      hide DuplicateAt, FitsAt;
      var end := if makeItSafe then mnLookahead else 0;
      i := FindDuplicate(end);
      if i < end {
        i := FindHole(end);
      }
    }

    /** The final loop: copy the entries into place and extend the used part. */
    method Store(i: nat, makeItSafe: bool)
      requires aLookahead != [] && IsMin(aLookahead, mnLookahead, mnAction) && IsMax(aLookahead, mxLookahead)
      requires InBounds(aAction[..], aLookahead, i - mnLookahead)
      modifies this`nAction, aAction
      ensures aAction[..] == Stored(old(aAction[..]), i - mnLookahead, aLookahead)
      ensures nAction == UsedAfter(old(nAction), mnLookahead, mxLookahead, makeItSafe, nterminal, i)
    {
      ghost var t, n, o := aAction[..], nAction, i - mnLookahead;
      for j := 0 to |aLookahead|
        invariant aAction[..] == Stored(t, o, aLookahead[..j])
        invariant n <= nAction && (nAction == n || exists m :: 0 <= m < j && nAction == o + aLookahead[m].lookahead + 1)
        invariant forall m :: 0 <= m < j ==> o + aLookahead[m].lookahead < nAction
      {
        var k := aLookahead[j].lookahead - mnLookahead + i;
        aAction[k] := aLookahead[j];
        if k >= nAction { nAction := k + 1; }
        assert aLookahead[..j + 1][..j] == aLookahead[..j];
      }
      assert aLookahead[..|aLookahead|] == aLookahead;
      if makeItSafe && i + nterminal >= nAction { nAction := i + nterminal + 1; }
    }

    /** `acttab_insert`: the set collected so far goes into the table at the returned offset.
        No earlier entry is ever disturbed (part of `Valid`).  All sets, old and new, are shown
        exactly afterwards if and only if the set was placeable, which is always the case when
        `mn + mx <= nsymbol`, and for terminal sets whenever terminals have gone into safe sets only;
        terminal lookups then stay exact.  The used part ends inside the allocation exactly if the
        set is not safe or its index leaves room for all terminals. */
    method Insert(makeItSafe: bool) returns (o: int)
      requires Valid() && aLookahead != [] && Distinct(aLookahead)
      modifies this, aAction
      ensures Valid() && (aAction == old(aAction) || fresh(aAction))
      ensures aLookahead == [] && placed == old(placed) + [Placement(o, old(aLookahead), makeItSafe)]
      ensures var t := Enlarged(old(aAction[..]), old(nAction), nsymbol);
        && Chosen(t, old(nAction), old(aLookahead), old(mnLookahead), old(mxLookahead), makeItSafe, o + old(mnLookahead))
        && InBounds(t, old(aLookahead), o) && 0 <= o + old(mnLookahead) && old(mnLookahead) <= old(mxLookahead)
        && aAction[..] == Stored(t, o, old(aLookahead))
        && nAction == UsedAfter(old(nAction), old(mnLookahead), old(mxLookahead), makeItSafe, nterminal, o + old(mnLookahead))
        && (old(Faithful()) ==> (Faithful() <==> Placeable(t, old(nAction), old(aLookahead), old(mnLookahead), old(mxLookahead), makeItSafe)))
        && (old(mnLookahead) + old(mxLookahead) <= nsymbol ==> Placeable(t, old(nAction), old(aLookahead), old(mnLookahead), old(mxLookahead), makeItSafe))
      ensures old(Tokens()) && makeItSafe
           && Placeable(Enlarged(old(aAction[..]), old(nAction), nsymbol), old(nAction), old(aLookahead), old(mnLookahead), old(mxLookahead), true)
           ==> Tokens()
      ensures old(Tokens()) && !makeItSafe && NonterminalsOnly(old(aLookahead), nterminal) ==> Tokens()
      ensures old(Proper()) && ProperSet(old(aLookahead), nterminal, makeItSafe) ==> Proper() && (old(Tokens()) ==> Tokens())
      ensures nAction <= aAction.Length <==> !makeItSafe || o + old(mnLookahead) + nterminal < aAction.Length
    {
      hide SafeSlots, ProperSet, TerminalsOnly, Placeable, Chosen, AllIntact, AllHeld, AllTokensExact, Intact, Distinct, Enlarged, Stored, InBounds, IsMin, IsMax, UsedAfter, NonterminalsOnly;
      ghost var t0, n, ps, mn, mx := aAction[..], nAction, aLookahead, mnLookahead, mxLookahead;
      EnlargedReady(t0, n, ps, mn, mnAction, mx, nsymbol);
      Enlarge();
      var i := Choose(makeItSafe);
      InsertSummary(t0, n, ps, mn, mx, nsymbol, nterminal, makeItSafe, i, placed);
      InsertUse(t0, n, ps, mn, mx, nsymbol, nterminal, makeItSafe, i);
      Store(i, makeItSafe);
      o := i - mnLookahead;
      placed := placed + [Placement(o, aLookahead, makeItSafe)];
      aLookahead := [];
    }
  }

  // ---- The search can run out of room ----

  /** The table after `k` insertions of `{10: 0}`, `{10: 1}`, ... among 30 symbols. */
  predicate Staircase(t: seq<Slot>, k: nat) {
    && |t| == 51 && k <= 19
    && (forall j :: 0 <= j < k ==> t[j] == Slot(10, j))
    && (forall j :: k <= j < 51 ==> t[j] == Slot(-1, -1))
  }

  predicate StaircaseOrNew(t: seq<Slot>, k: nat) { if k == 0 then t == [] else Staircase(t, k) }

  lemma StaircaseStep(t0: seq<Slot>, k: nat, o: int)
    requires StaircaseOrNew(t0, k) && k < 19
    requires Chosen(Enlarged(t0, k, 30), k, [Slot(10, k)], 10, 10, false, o + 10)
    requires InBounds(Enlarged(t0, k, 30), [Slot(10, k)], o)
    ensures o + 10 == k && Staircase(Stored(Enlarged(t0, k, 30), o, [Slot(10, k)]), k + 1)
  {
    var t, ps := Enlarged(t0, k, 30), [Slot(10, k)];
    assert Staircase(t, k);
    forall d | 0 <= d < k ensures !DuplicateAt(t, k, ps, 10, d) {
      assert !EntryAt(t, d - 10, ps[0]);
    }
    assert FitsAt(t, k, ps, 10, k);
    assert FitsAt(t, k, ps, 10, o + 10);
    assert t[o + ps[0].lookahead].lookahead < 0;
    assert Stored(t, o, ps) == t[k := Slot(10, k)];
  }

  lemma StaircaseFull(t: seq<Slot>)
    requires Staircase(t, 19)
    ensures !Placeable(t, 19, [Slot(29, 19)], 29, 29, false)
  {
    var ps := [Slot(29, 19)];
    forall d | 0 <= d < 19 ensures !DuplicateAt(t, 19, ps, 29, d) {
      assert !EntryAt(t, d - 29, ps[0]);
    }
    forall f | 0 <= f < 51 - 29 ensures !FitsAt(t, 19, ps, 29, f) {
      if f < 19 {
        assert t[(f - 29) + ps[0].lookahead].lookahead >= 0;
      } else {
        assert t[f - 19].lookahead == (f - 19) - (f - 29);
      }
    }
    assert Answers(t, 51 - 29 - 29, 3);
  }

  ghost predicate AtStep(tab: ActTab, k: nat)
    reads tab, tab.aAction
  {
    && tab.Valid() && tab.Faithful() && tab.nsymbol == 30 && tab.nAction == k && tab.aLookahead == []
    && StaircaseOrNew(tab.aAction[..], k)
    && |tab.placed| == k && forall j :: 0 <= j < k ==> tab.placed[j].entries == [Slot(10, j)]
  }

  method ClimbStep(tab: ActTab, k: nat)
    requires k < 19 && AtStep(tab, k)
    modifies tab, tab.aAction
    ensures AtStep(tab, k + 1) && (tab.aAction == old(tab.aAction) || fresh(tab.aAction))
  {
    hide Chosen, Placeable, AllIntact, AllHeld, AllTokensExact, Enlarged, Stored, InBounds, Staircase, NonterminalsOnly;
    ghost var t0 := tab.aAction[..];
    tab.Action(10, k);
    assert tab.aLookahead == [Slot(10, k)];
    SingletonBounds(tab.aLookahead, tab.mnLookahead, tab.mnAction, tab.mxLookahead);
    var o := tab.Insert(false);
    StaircaseStep(t0, k, o);
  }

  /** A run of 20 legal insertions after which the table no longer represents the sets:
      the last set is put at the offset of the fourth one. */
  method OverlapExample() returns (tab: ActTab)
    ensures fresh(tab) && tab.Valid() && tab.nsymbol == 30 && |tab.placed| == 20
    ensures forall k :: 0 <= k < 19 ==> tab.placed[k].entries == [Slot(10, k)]
    ensures tab.placed[19].entries == [Slot(29, 19)]
    ensures !tab.Faithful()
  {
    hide Chosen, Placeable, AllIntact, AllHeld, AllTokensExact, Stored, InBounds, NonterminalsOnly;
    tab := new ActTab(30, 5);
    for k := 0 to 19
      invariant fresh(tab) && fresh(tab.aAction) && AtStep(tab, k)
    {
      ClimbStep(tab, k);
    }
    StaircaseFull(tab.aAction[..]);
    tab.Action(29, 19);
    assert tab.aLookahead == [Slot(29, 19)];
    SingletonBounds(tab.aLookahead, tab.mnLookahead, tab.mnAction, tab.mxLookahead);
    var o := tab.Insert(false);
  }

  lemma SingletonBounds(ps: seq<Slot>, mn: int, mnAction: int, mx: int)
    requires |ps| == 1 && IsMin(ps, mn, mnAction) && IsMax(ps, mx)
    ensures mn == mx == ps[0].lookahead
  {
  }

  // ---- The used part can end behind the allocation ----

  /** On an empty table a set whose first place fits goes there. */
  lemma EmptyTableChoice(t: seq<Slot>, ps: seq<Slot>, mn: int, mx: int, i: int)
    requires Chosen(t, 0, ps, mn, mx, false, i) && FitsAt(t, 0, ps, mn, 0) && mx < |t|
    ensures i == 0
  {
    hide DuplicateAt, FitsAt;
  }

  const TWO: seq<Slot> := [Slot(41, 0), Slot(42, 1)]

  /** The first of two insertions among 43 symbols, 41 of them terminals. */
  lemma FirstOfTwo(o: int)
    requires Chosen(Enlarged([], 0, 43), 0, TWO, 41, 42, false, o + 41) && InBounds(Enlarged([], 0, 43), TWO, o)
    ensures o == -41 && |Stored(Enlarged([], 0, 43), o, TWO)| == 64 && UsedAfter(0, 41, 42, false, 41, o + 41) == 2
  {
    hide Chosen, Stored;
    var t := Enlarged([], 0, 43);
    assert FitsAt(t, 0, TWO, 41, 0);
    EmptyTableChoice(t, TWO, 41, 42, o + 41);
  }

  lemma SecondOfTwo(t: seq<Slot>, o: int)
    requires |t| == 64 && Chosen(t, 2, [Slot(40, 2)], 40, 40, true, o + 40)
    ensures o == 0 && UsedAfter(2, 40, 40, true, 41, o + 40) == 82
  {
    hide DuplicateAt, FitsAt;
  }

  lemma NoGrowth(t: seq<Slot>)
    requires |t| == 64
    ensures Enlarged(t, 2, 43) == t
  {
  }

  /** Two legal insertions after which the used part ends 18 slots behind the allocation. */
  method BeyondExample() returns (tab: ActTab)
    ensures fresh(tab) && tab.Valid() && tab.Proper() && tab.nAction == 82 && tab.aAction.Length == 64
  {
    hide Chosen, Placeable, AllIntact, AllHeld, AllTokensExact, Stored, InBounds, Enlarged, UsedAfter, SafeSlots;
    tab := new ActTab(43, 41);
    assert tab.aAction[..] == [];
    tab.Action(41, 0);
    tab.Action(42, 1);
    assert tab.aLookahead == TWO;
    PairBounds(tab.aLookahead, tab.mnLookahead, tab.mnAction, tab.mxLookahead);
    var o := tab.Insert(false);
    FirstOfTwo(o);
    SecondInsert(tab);
  }

  method SecondInsert(tab: ActTab)
    requires tab.Valid() && tab.Proper() && tab.nsymbol == 43 && tab.nterminal == 41 && tab.nAction == 2 && tab.aAction.Length == 64 && tab.aLookahead == []
    modifies tab, tab.aAction
    ensures tab.Valid() && tab.Proper() && tab.nAction == 82 && tab.aAction.Length == 64
  {
    hide Chosen, Placeable, AllIntact, AllHeld, AllTokensExact, Stored, InBounds, Enlarged, UsedAfter, SafeSlots;
    ghost var t := tab.aAction[..];
    tab.Action(40, 2);
    assert tab.aLookahead == [Slot(40, 2)];
    SingletonBounds(tab.aLookahead, tab.mnLookahead, tab.mnAction, tab.mxLookahead);
    NoGrowth(t);
    var o := tab.Insert(true);
    SecondOfTwo(t, o);
  }

  lemma PairBounds(ps: seq<Slot>, mn: int, mnAction: int, mx: int)
    requires ps == TWO && IsMin(ps, mn, mnAction) && IsMax(ps, mx)
    ensures mn == 41 && mx == 42
  {
    assert ps[0] == Slot(41, 0) && ps[1] == Slot(42, 1);
  }
}
