/** The layout half of `ReportTable`: packing the action sets of all states and reading them back. */
module Packing {
  import opened Wrappers
  import opened Actions
  import opened Compress
  import opened ActionTable
  import opened TableGen
  import MergeSort

  // ---- The sets handed to the packer ----

  /** The entries of one state for the symbols in `lo..hi`. */
  function Entries(N: Numbers, aps: seq<Action>, lo: nat, hi: nat): seq<Slot> {
    if aps == [] then []
    else if InSpan(aps[0], lo, hi) then [Slot(aps[0].sp, Code(N, aps[0]))] + Entries(N, aps[1..], lo, hi)
    else Entries(N, aps[1..], lo, hi)
  }

  lemma {:induction false} EntriesMembers(N: Numbers, aps: seq<Action>, lo: nat, hi: nat)
    ensures forall e :: e in Entries(N, aps, lo, hi) <==> exists a :: a in aps && InSpan(a, lo, hi) && e == Slot(a.sp, Code(N, a))
  {
    if aps != [] {
      EntriesMembers(N, aps[1..], lo, hi);
      assert aps == [aps[0]] + aps[1..];
      forall e ensures e in Entries(N, aps, lo, hi) <==> exists a :: a in aps && InSpan(a, lo, hi) && e == Slot(a.sp, Code(N, a)) {
        if a :| a in aps[1..] && InSpan(a, lo, hi) && e == Slot(a.sp, Code(N, a)) { assert a in aps; }
      }
    }
  }

  lemma {:induction false} EntriesCounted(N: Numbers, aps: seq<Action>, lo: nat, hi: nat)
    ensures |Entries(N, aps, lo, hi)| == Population(aps, lo, hi)
  {
    if aps != [] { EntriesCounted(N, aps[1..], lo, hi); }
  }

  /** The entries say for each symbol what the list says. */
  lemma EntriesAnswer(N: Numbers, aps: seq<Action>, lo: nat, hi: nat, x: nat)
    requires lo <= x < hi && |LiveOn(aps, x)| <= 1
    ensures Has(Entries(N, aps, lo, hi), x) <==> LiveOn(aps, x) != []
    ensures forall e :: e in Entries(N, aps, lo, hi) && e.lookahead == x ==> LiveOn(aps, x) != [] && e.action == Code(N, LiveOn(aps, x)[0])
  {
    EntriesMembers(N, aps, lo, hi);
    LiveOnMembers(aps, x);
    var es := Entries(N, aps, lo, hi);
    if LiveOn(aps, x) != [] {
      var a := LiveOn(aps, x)[0];
      assert a in LiveOn(aps, x);
      assert Slot(x, Code(N, a)) in es;
    }
    forall e | e in es && e.lookahead == x ensures LiveOn(aps, x) != [] && e.action == Code(N, LiveOn(aps, x)[0]) {
      var a :| a in aps && InSpan(a, lo, hi) && e == Slot(a.sp, Code(N, a));
      assert a in LiveOn(aps, x);
    }
  }

  lemma {:induction false} EntriesDistinct(N: Numbers, aps: seq<Action>, lo: nat, hi: nat)
    requires Deterministic(aps)
    ensures Distinct(Entries(N, aps, lo, hi))
    ensures forall j :: 0 <= j < |Entries(N, aps, lo, hi)| ==> lo <= Entries(N, aps, lo, hi)[j].lookahead < hi
  {
    if aps != [] {
      assert Deterministic(aps[1..]) by {
        forall sp: nat ensures |LiveOn(aps[1..], sp)| <= 1 { assert |LiveOn(aps, sp)| <= 1; }
      }
      EntriesDistinct(N, aps[1..], lo, hi);
      if InSpan(aps[0], lo, hi) {
        var rest := Entries(N, aps[1..], lo, hi);
        assert |LiveOn(aps, aps[0].sp)| <= 1;
        EntriesAnswer(N, aps[1..], lo, hi, aps[0].sp);
        assert !Has(rest, aps[0].sp);
      }
    }
  }

  method ListEntries(N: Numbers, aps: seq<Action>, lo: nat, hi: nat) returns (es: seq<Slot>)
    ensures es == Entries(N, aps, lo, hi)
  {
    es := [];
    for i := 0 to |aps|
      invariant Entries(N, aps, lo, hi) == es + Entries(N, aps[i..], lo, hi)
    {
      assert aps[i..][0] == aps[i] && aps[i..][1..] == aps[i + 1..];
      if InSpan(aps[i], lo, hi) { es := es + [Slot(aps[i].sp, Code(N, aps[i]))]; }
    }
  }

  // ---- Packing one set ----

  /** Terminals so far went into safe sets only, and looking them up is exact. */
  ghost predicate Packable(tab: ActTab)
    reads tab, tab.aAction
  {
    tab.Valid() && tab.aLookahead == [] && tab.Tokens() && tab.Proper()
  }

  /** The calls of `acttab_action` followed by `acttab_insert`. */
  method AddSet(tab: ActTab, es: seq<Slot>, safe: bool) returns (o: int)
    requires Packable(tab) && es != [] && Distinct(es) && ProperSet(es, tab.nterminal, safe)
    requires forall j :: 0 <= j < |es| ==> 0 <= es[j].lookahead < tab.nsymbol
    modifies tab, tab.aAction
    ensures Packable(tab) && (tab.aAction == old(tab.aAction) || fresh(tab.aAction))
    ensures tab.placed == old(tab.placed) + [Placement(o, es, safe)]
  {
    hide Placeable, Chosen, AllHeld, AllTokensExact, Enlarged, Stored, InBounds, AllIntact, SafeSlots, ProperSet;
    for j := 0 to |es|
      invariant tab.Valid() && tab.aLookahead == es[..j] && tab.aAction == old(tab.aAction)
      invariant tab.placed == old(tab.placed) && tab.nAction == old(tab.nAction) && tab.aAction[..] == old(tab.aAction[..])
      invariant tab.Tokens() && tab.Proper()
    {
      tab.Action(es[j].lookahead, es[j].action);
      assert es[..j + 1] == es[..j] + [es[j]];
    }
    assert es[..|es|] == es;
    o := tab.Insert(safe);
  }

  // ---- Packing all sets ----

  datatype Offsets = Offsets(token: Option<int>, nonterminal: Option<int>)

  /** The sets of state list `aps` have been packed at these offsets. */
  ghost predicate Packed(N: Numbers, nterminal: nat, nsymbol: nat, placed: seq<Placement>, aps: seq<Action>, ofs: Offsets) {
    && PackedSet(placed, Entries(N, aps, 0, nterminal), true, ofs.token)
    && PackedSet(placed, Entries(N, aps, nterminal, nsymbol), false, ofs.nonterminal)
  }

  ghost predicate PackedSet(placed: seq<Placement>, es: seq<Slot>, safe: bool, o: Option<int>) {
    match o
    case None => es == []
    case Some(ofs) => Placement(ofs, es, safe) in placed
  }

  /** One set to pack: the terminal or the nonterminal actions of a row. */
  datatype AxSet = AxSet(row: nat, isTkn: bool, nAction: nat, iOrder: nat)

  /** `axset_compare`: larger sets first, ties by position. */
  function AxCmp(a: AxSet, b: AxSet): int {
    if a.nAction != b.nAction then b.nAction - a.nAction else a.iOrder - b.iOrder
  }

  lemma AxCmpOrders()
    ensures MergeSort.TotalPreorder(AxCmp)
  {
  }

  function Low(isTkn: bool, nterminal: nat): nat { if isTkn then 0 else nterminal }

  function High(isTkn: bool, nterminal: nat, nsymbol: nat): nat { if isTkn then nterminal else nsymbol }

  function SetOf(N: Numbers, nterminal: nat, nsymbol: nat, aps: seq<Action>, isTkn: bool): seq<Slot> {
    Entries(N, aps, Low(isTkn, nterminal), High(isTkn, nterminal, nsymbol))
  }

  /** `ax[]` names the sets of the rows, with their sizes. */
  ghost predicate AllSets(N: Numbers, nterminal: nat, nsymbol: nat, rows: seq<seq<Action>>, ax: seq<AxSet>) {
    && (forall x :: x in ax ==> x.row < |rows| && x.nAction == |SetOf(N, nterminal, nsymbol, rows[x.row], x.isTkn)|)
    && (forall n: nat, isTkn: bool :: n < |rows| ==> Names(ax, n, isTkn))
    && (forall x :: x in ax ==> x.iOrder == 2 * x.row + (if x.isTkn then 0 else 1)) && MergeSort.NoRepeats(ax)
  }

  /** The larger set is packed first; of two of one size, that of the earlier row, terminals before
      nonterminals. */
  predicate PackedBefore(a: AxSet, b: AxSet) {
    || a.nAction > b.nAction
    || (a.nAction == b.nAction && (a.row < b.row || (a.row == b.row && a.isTkn && !b.isTkn)))
  }

  /** The sets are placed one after the other in that order, terminal sets safely. */
  ghost predicate PlacedInOrder(N: Numbers, nterminal: nat, nsymbol: nat, rows: seq<seq<Action>>, ax: seq<AxSet>, ps: seq<Placement>) {
    && (forall i, j :: 0 <= i < j < |ax| ==> PackedBefore(ax[i], ax[j])) && |ps| <= |ax|
    && (forall i :: 0 <= i < |ps| ==> IsPlacementOf(N, nterminal, nsymbol, rows, ax[i], ps[i]))
    && (forall i :: |ps| <= i < |ax| ==> ax[i].nAction == 0)
  }

  ghost predicate IsPlacementOf(N: Numbers, nterminal: nat, nsymbol: nat, rows: seq<seq<Action>>, x: AxSet, p: Placement) {
    x.row < |rows| && x.nAction > 0 && p.entries == SetOf(N, nterminal, nsymbol, rows[x.row], x.isTkn) && p.safe == x.isTkn
  }

  ghost predicate Names(ax: seq<AxSet>, n: nat, isTkn: bool) { exists x :: x in ax && x.row == n && x.isTkn == isTkn }

  method ListSets(N: Numbers, nterminal: nat, nsymbol: nat, rows: seq<seq<Action>>) returns (ax: seq<AxSet>)
    ensures AllSets(N, nterminal, nsymbol, rows, ax)
  {
    ax := [];
    for n := 0 to |rows|
      invariant forall x :: x in ax ==> x.row < n && x.nAction == |SetOf(N, nterminal, nsymbol, rows[x.row], x.isTkn)|
      invariant forall k: nat, isTkn: bool :: k < n ==> Names(ax, k, isTkn)
      invariant forall x :: x in ax ==> x.iOrder == 2 * x.row + (if x.isTkn then 0 else 1)
      invariant MergeSort.NoRepeats(ax)
    {
      var token := AxSet(n, true, Population(rows[n], 0, nterminal), 2 * n);
      var other := AxSet(n, false, Population(rows[n], nterminal, nsymbol), 2 * n + 1);
      EntriesCounted(N, rows[n], 0, nterminal);
      EntriesCounted(N, rows[n], nterminal, nsymbol);
      ghost var before := ax;
      ax := ax + [token, other];
      hide Entries, Population;
      assert token in ax && other in ax;
      forall k: nat, isTkn: bool | k < n ensures Names(ax, k, isTkn) {
        assert Names(before, k, isTkn);
        var x :| x in before && x.row == k && x.isTkn == isTkn;
        assert x in ax;
      }
    }
  }

  function Offset(ofs: Offsets, isTkn: bool): Option<int> { if isTkn then ofs.token else ofs.nonterminal }

  function Put(ofs: Offsets, isTkn: bool, o: int): Offsets { if isTkn then ofs.(token := Some(o)) else ofs.(nonterminal := Some(o)) }

  /** Every offset given so far is one at which the set in question was placed. */
  ghost predicate OffsetsHold(N: Numbers, nterminal: nat, nsymbol: nat, placed: seq<Placement>, rows: seq<seq<Action>>, ofs: seq<Offsets>) {
    && |ofs| == |rows|
    && forall n: nat, isTkn: bool :: n < |rows| && Offset(ofs[n], isTkn).Some? ==>
         Placement(Offset(ofs[n], isTkn).value, SetOf(N, nterminal, nsymbol, rows[n], isTkn), isTkn) in placed
  }

  lemma OffsetPut(N: Numbers, nterminal: nat, nsymbol: nat, placed: seq<Placement>, rows: seq<seq<Action>>, ofs: seq<Offsets>, n: nat, isTkn: bool, o: int)
    requires OffsetsHold(N, nterminal, nsymbol, placed, rows, ofs) && n < |rows|
    ensures OffsetsHold(N, nterminal, nsymbol, placed + [Placement(o, SetOf(N, nterminal, nsymbol, rows[n], isTkn), isTkn)], rows, ofs[n := Put(ofs[n], isTkn, o)])
  {
    hide SetOf;
    var after := placed + [Placement(o, SetOf(N, nterminal, nsymbol, rows[n], isTkn), isTkn)];
    assert forall p :: p in placed ==> p in after;
    assert Placement(o, SetOf(N, nterminal, nsymbol, rows[n], isTkn), isTkn) in after;
  }

  /** The sets up to position `i` have offsets. */
  predicate PlacedUpTo(ax: seq<AxSet>, i: nat, ofs: seq<Offsets>)
    requires i <= |ax|
  {
    forall j :: 0 <= j < i ==> ax[j].row < |ofs| && Offset(ofs[ax[j].row], ax[j].isTkn).Some?
  }

  /** When the remaining sets are empty, every row is packed. */
  lemma RowsPacked(N: Numbers, nterminal: nat, nsymbol: nat, placed: seq<Placement>, rows: seq<seq<Action>>, ax: seq<AxSet>, i: nat, ofs: seq<Offsets>)
    requires AllSets(N, nterminal, nsymbol, rows, ax) && i <= |ax| && PlacedUpTo(ax, i, ofs)
    requires OffsetsHold(N, nterminal, nsymbol, placed, rows, ofs)
    requires forall j :: i <= j < |ax| ==> ax[j].nAction == 0
    ensures forall n :: 0 <= n < |rows| ==> Packed(N, nterminal, nsymbol, placed, rows[n], ofs[n])
  {
    hide Entries;
    forall n: nat, isTkn: bool | n < |rows| ensures PackedSet(placed, SetOf(N, nterminal, nsymbol, rows[n], isTkn), isTkn, Offset(ofs[n], isTkn)) {
      assert Names(ax, n, isTkn);
      var x :| x in ax && x.row == n && x.isTkn == isTkn;
      var j :| 0 <= j < |ax| && ax[j] == x;
    }
    forall n | 0 <= n < |rows| ensures Packed(N, nterminal, nsymbol, placed, rows[n], ofs[n]) {
      assert PackedSet(placed, SetOf(N, nterminal, nsymbol, rows[n], true), true, Offset(ofs[n], true));
      assert PackedSet(placed, SetOf(N, nterminal, nsymbol, rows[n], false), false, Offset(ofs[n], false));
    }
  }

  /** The sets of all rows are packed, largest first, and every row can be found again. */
  method PackAll(tab: ActTab, N: Numbers, rows: seq<seq<Action>>) returns (ofs: seq<Offsets>, ghost sets: seq<AxSet>)
    requires Packable(tab) && forall n :: 0 <= n < |rows| ==> Deterministic(rows[n])
    modifies tab, tab.aAction
    ensures Packable(tab) && |ofs| == |rows|
    ensures forall n :: 0 <= n < |rows| ==> Packed(N, tab.nterminal, tab.nsymbol, tab.placed, rows[n], ofs[n])
    ensures AllSets(N, tab.nterminal, tab.nsymbol, rows, sets)
    ensures |old(tab.placed)| <= |tab.placed| && PlacedInOrder(N, tab.nterminal, tab.nsymbol, rows, sets, tab.placed[|old(tab.placed)|..])
  {
    hide AllHeld, AllTokensExact, Deterministic, Packed, Distinct, OffsetsHold, Entries, SafeSlots, PackedBefore, SetOf, PlacedSince, IsPlacementOf, PlacedInOrder;
    ghost var placed0 := tab.placed;
    var ax := SortSets(N, tab.nterminal, tab.nsymbol, rows);
    ofs := seq(|rows|, _ => Offsets(None, None));
    NoOffsets(N, tab.nterminal, tab.nsymbol, tab.placed, rows, ofs);
    NonePlaced(N, tab.nterminal, tab.nsymbol, rows, ax, placed0);
    var i := 0;
    while i < |ax| && ax[i].nAction > 0
      invariant i <= |ax| && |ofs| == |rows| && PlacedUpTo(ax, i, ofs)
      invariant Packable(tab) && (tab.aAction == old(tab.aAction) || fresh(tab.aAction))
      invariant OffsetsHold(N, tab.nterminal, tab.nsymbol, tab.placed, rows, ofs)
      invariant PlacedSince(N, tab.nterminal, tab.nsymbol, rows, ax, i, placed0, tab.placed)
    {
      assert ax[i] in ax;
      ghost var before := tab.placed;
      ofs := PlaceSet(tab, N, rows, ax[i], ofs);
      OneMorePlaced(N, tab.nterminal, tab.nsymbol, rows, ax, i, placed0, before, tab.placed);
      i := i + 1;
    }
    EmptyBehind(ax, i);
    InOrder(N, tab.nterminal, tab.nsymbol, rows, ax, i, placed0, tab.placed);
    sets := ax;
    RowsPacked(N, tab.nterminal, tab.nsymbol, tab.placed, rows, ax, i, ofs);
  }

  /** The placements since `placed0` are those of the first `i` sets. */
  ghost predicate PlacedSince(N: Numbers, nterminal: nat, nsymbol: nat, rows: seq<seq<Action>>, ax: seq<AxSet>, i: nat, placed0: seq<Placement>, placed: seq<Placement>)
    requires i <= |ax|
  {
    && |placed| == |placed0| + i && placed[..|placed0|] == placed0
    && forall j :: 0 <= j < i ==> IsPlacementOf(N, nterminal, nsymbol, rows, ax[j], placed[|placed0| + j])
  }

  lemma NonePlaced(N: Numbers, nterminal: nat, nsymbol: nat, rows: seq<seq<Action>>, ax: seq<AxSet>, placed0: seq<Placement>)
    ensures PlacedSince(N, nterminal, nsymbol, rows, ax, 0, placed0, placed0)
  {
  }

  lemma OneMorePlaced(N: Numbers, nterminal: nat, nsymbol: nat, rows: seq<seq<Action>>, ax: seq<AxSet>, i: nat, placed0: seq<Placement>, before: seq<Placement>, placed: seq<Placement>)
    requires i < |ax| && PlacedSince(N, nterminal, nsymbol, rows, ax, i, placed0, before)
    requires |placed| == |before| + 1 && placed[..|before|] == before && ax[i].row < |rows| && ax[i].nAction > 0
    requires placed[|before|].entries == SetOf(N, nterminal, nsymbol, rows[ax[i].row], ax[i].isTkn) && placed[|before|].safe == ax[i].isTkn
    ensures PlacedSince(N, nterminal, nsymbol, rows, ax, i + 1, placed0, placed)
  {
    hide SetOf;
    forall j | 0 <= j < i ensures IsPlacementOf(N, nterminal, nsymbol, rows, ax[j], placed[|placed0| + j]) {
      assert placed[|placed0| + j] == before[|placed0| + j];
    }
    assert placed[..|placed0|] == before[..|placed0|];
  }

  lemma InOrder(N: Numbers, nterminal: nat, nsymbol: nat, rows: seq<seq<Action>>, ax: seq<AxSet>, i: nat, placed0: seq<Placement>, placed: seq<Placement>)
    requires i <= |ax| && PlacedSince(N, nterminal, nsymbol, rows, ax, i, placed0, placed)
    requires (forall a, b :: 0 <= a < b < |ax| ==> PackedBefore(ax[a], ax[b])) && forall j :: i <= j < |ax| ==> ax[j].nAction == 0
    ensures |placed0| <= |placed| && PlacedInOrder(N, nterminal, nsymbol, rows, ax, placed[|placed0|..])
  {
    hide IsPlacementOf, PackedBefore;
  }

  /** Behind an empty set there are empty sets only. */
  lemma EmptyBehind(ax: seq<AxSet>, i: nat)
    requires i <= |ax| && (i < |ax| ==> ax[i].nAction == 0) && forall a, b :: 0 <= a < b < |ax| ==> PackedBefore(ax[a], ax[b])
    ensures forall j :: i <= j < |ax| ==> ax[j].nAction == 0
  {
    forall j | i < j < |ax| ensures ax[j].nAction == 0 { assert PackedBefore(ax[i], ax[j]); }
  }

  method SortSets(N: Numbers, nterminal: nat, nsymbol: nat, rows: seq<seq<Action>>) returns (ax: seq<AxSet>)
    ensures AllSets(N, nterminal, nsymbol, rows, ax)
    ensures forall i, j :: 0 <= i < j < |ax| ==> PackedBefore(ax[i], ax[j])
  {
    hide AllSets;
    var all := ListSets(N, nterminal, nsymbol, rows);
    AxCmpOrders();
    ax := MergeSort.Msort(AxCmp, all);
    SortedSets(N, nterminal, nsymbol, rows, all, ax);
  }

  /** Pack one set of one row and record its offset. */
  method PlaceSet(tab: ActTab, N: Numbers, rows: seq<seq<Action>>, x: AxSet, ofs: seq<Offsets>) returns (ofs': seq<Offsets>)
    requires Packable(tab) && x.row < |rows| && Deterministic(rows[x.row])
    requires SetOf(N, tab.nterminal, tab.nsymbol, rows[x.row], x.isTkn) != []
    requires OffsetsHold(N, tab.nterminal, tab.nsymbol, tab.placed, rows, ofs)
    modifies tab, tab.aAction
    ensures Packable(tab) && (tab.aAction == old(tab.aAction) || fresh(tab.aAction))
    ensures OffsetsHold(N, tab.nterminal, tab.nsymbol, tab.placed, rows, ofs')
    ensures |ofs| == |ofs'| == |rows| && exists o :: ofs' == ofs[x.row := Put(ofs[x.row], x.isTkn, o)]
    ensures |tab.placed| == |old(tab.placed)| + 1 && tab.placed[..|old(tab.placed)|] == old(tab.placed)
    ensures var p := tab.placed[|old(tab.placed)|]; p.entries == SetOf(N, tab.nterminal, tab.nsymbol, rows[x.row], x.isTkn) && p.safe == x.isTkn
  {
    var lo, hi := Low(x.isTkn, tab.nterminal), High(x.isTkn, tab.nterminal, tab.nsymbol);
    assert |ofs| == |rows|;
    hide AllHeld, AllTokensExact, Deterministic, Distinct, OffsetsHold, Entries, SafeSlots;
    var es := ListEntries(N, rows[x.row], lo, hi);
    EntriesDistinct(N, rows[x.row], lo, hi);
    ghost var before := tab.placed;
    var o := AddSet(tab, es, x.isTkn);
    OffsetPut(N, tab.nterminal, tab.nsymbol, before, rows, ofs, x.row, x.isTkn, o);
    ofs' := ofs[x.row := Put(ofs[x.row], x.isTkn, o)];
  }

  lemma NoOffsets(N: Numbers, nterminal: nat, nsymbol: nat, placed: seq<Placement>, rows: seq<seq<Action>>, ofs: seq<Offsets>)
    requires |ofs| == |rows| && forall n :: 0 <= n < |ofs| ==> ofs[n] == Offsets(None, None)
    ensures OffsetsHold(N, nterminal, nsymbol, placed, rows, ofs)
  {
  }

  lemma SortedSets(N: Numbers, nterminal: nat, nsymbol: nat, rows: seq<seq<Action>>, all: seq<AxSet>, ax: seq<AxSet>)
    requires AllSets(N, nterminal, nsymbol, rows, all) && multiset(all) == multiset(ax) && MergeSort.Sorted(AxCmp, ax)
    ensures AllSets(N, nterminal, nsymbol, rows, ax)
    ensures forall i, j :: 0 <= i < j < |ax| ==> PackedBefore(ax[i], ax[j])
  {
    hide SetOf;
    MergeSort.RearrangedElements(all, ax);
    forall i, j | 0 <= i < j < |ax| ensures PackedBefore(ax[i], ax[j]) {
      assert AxCmp(ax[i], ax[j]) <= 0 && ax[i] in ax && ax[j] in ax;
    }
    forall n: nat, isTkn: bool | n < |rows| ensures Names(ax, n, isTkn) {
      assert Names(all, n, isTkn);
    }
  }

  // ---- Writing the arrays and reading them back ----

  /** What lies in memory behind the allocated slots; nothing is known about it. */
  type Memory = int -> Slot

  /** A slot as the code reads it: of the array, or of whatever comes behind it. */
  function SlotAt(t: seq<Slot>, mem: Memory, k: nat): Slot { if k < |t| then t[k] else mem(k) }

  /** The size of the action table without trailing empty slots (`acttab_action_size`).  The scan
      starts at `nAction`, which may lie behind the allocation. */
  predicate IsTrimmed(t: seq<Slot>, mem: Memory, nAction: nat, n: nat) {
    n <= nAction && forall k: nat :: n <= k < nAction ==> SlotAt(t, mem, k).lookahead < 0
  }

  method ActionSize(tab: ActTab, mem: Memory) returns (n: nat)
    requires tab.Valid()
    ensures IsTrimmed(tab.aAction[..], mem, tab.nAction, n)
    ensures n > 0 ==> SlotAt(tab.aAction[..], mem, n - 1).lookahead >= 0
  {
    n := tab.nAction;
    while n > 0 && SlotAt(tab.aAction[..], mem, n - 1).lookahead < 0
      invariant n <= tab.nAction && forall k: nat :: n <= k < tab.nAction ==> SlotAt(tab.aAction[..], mem, k).lookahead < 0
    {
      n := n - 1;
    }
  }

  function YyAction(t: seq<Slot>, mem: Memory, nact: nat, noAction: nat): (r: seq<int>)
    ensures |r| == nact
  {
    seq(nact, i requires 0 <= i => if SlotAt(t, mem, i).action < 0 then noAction else SlotAt(t, mem, i).action)
  }

  function LookaheadCode(t: seq<Slot>, mem: Memory, nAction: nat, nterminal: nat, nsymbol: nat, i: nat): int {
    if i >= nAction then nterminal else if SlotAt(t, mem, i).lookahead < 0 then nsymbol else SlotAt(t, mem, i).lookahead
  }

  /** `yy_lookahead[]`: empty slots carry a code that is no symbol, and the array is padded so that
      every offset plus every terminal is inside it. */
  function YyLookahead(t: seq<Slot>, mem: Memory, nAction: nat, nact: nat, nterminal: nat, nsymbol: nat): (r: seq<int>)
    ensures |r| >= nAction && |r| >= nterminal + nact
    ensures forall i :: 0 <= i < |r| ==> r[i] == LookaheadCode(t, mem, nAction, nterminal, nsymbol, i)
  {
    var n := if nAction > nterminal + nact then nAction else nterminal + nact;
    seq(n, i requires 0 <= i => LookaheadCode(t, mem, nAction, nterminal, nsymbol, i))
  }

  /** A packed table with everything known about it. */
  ghost predicate Layout(t: seq<Slot>, mem: Memory, nAction: nat, nact: nat, nterminal: nat, nsymbol: nat, placed: seq<Placement>) {
    && nterminal < nsymbol && IsTrimmed(t, mem, nAction, nact)
    && (forall k :: nAction <= k < |t| ==> t[k].lookahead < 0)
    && AllHeld(t, nAction, nterminal, placed) && AllTokensExact(t, nterminal, placed)
  }

  predicate CodesPositive(N: Numbers, aps: seq<Action>) {
    forall a :: a in aps && Live(a) ==> Code(N, a) >= 0
  }

  /** An entry of a placement is found again through the two arrays. */
  lemma HeldRead(t: seq<Slot>, mem: Memory, nAction: nat, nact: nat, nterminal: nat, nsymbol: nat, noAction: nat, placed: seq<Placement>, p: Placement, e: Slot)
    requires Layout(t, mem, nAction, nact, nterminal, nsymbol, placed) && p in placed && e in p.entries && e.action >= 0
    ensures 0 <= p.offset + e.lookahead < nact
    ensures YyLookahead(t, mem, nAction, nact, nterminal, nsymbol)[p.offset + e.lookahead] == e.lookahead
    ensures YyAction(t, mem, nact, noAction)[p.offset + e.lookahead] == e.action
  {
    hide AllTokensExact;
    assert HeldBy(t, nAction, nterminal, p);
    var j :| 0 <= j < |p.entries| && p.entries[j] == e;
    assert EntryAt(t, p.offset, e);
    assert SlotAt(t, mem, p.offset + e.lookahead) == e;
  }

  function TokenOffset(ofs: Offsets, nact: nat): int { if ofs.token.Some? then ofs.token.value else nact }

  /** Looking up a terminal: in bounds, a hit exactly if the state has an action on it. */
  lemma TokenRead(N: Numbers, t: seq<Slot>, mem: Memory, nAction: nat, nact: nat, nterminal: nat, nsymbol: nat, noAction: nat,
                  placed: seq<Placement>, aps: seq<Action>, ofs: Offsets, la: nat)
    requires Layout(t, mem, nAction, nact, nterminal, nsymbol, placed) && Packed(N, nterminal, nsymbol, placed, aps, ofs)
    requires Deterministic(aps) && CodesPositive(N, aps) && la < nterminal
    ensures var i, look := TokenOffset(ofs, nact) + la, YyLookahead(t, mem, nAction, nact, nterminal, nsymbol);
      && 0 <= i < |look|
      && (look[i] == la <==> LiveOn(aps, la) != [])
      && (look[i] == la ==> i < nact && YyAction(t, mem, nact, noAction)[i] == Code(N, LiveOn(aps, la)[0]))
  {
    hide AllHeld, AllTokensExact, Entries, CodesPositive;
    var es := Entries(N, aps, 0, nterminal);
    EntriesAnswer(N, aps, 0, nterminal, la);
    var i := TokenOffset(ofs, nact) + la;
    match ofs.token
    case None =>
      assert i < nAction ==> SlotAt(t, mem, i).lookahead < 0;
    case Some(o) =>
      var p := Placement(o, es, true);
      InSafeRange(t, mem, nAction, nact, nterminal, nsymbol, placed, p, la);
      if LiveOn(aps, la) != [] {
        var j :| 0 <= j < |es| && es[j].lookahead == la;
        assert es[j] in es;
        CodeOfEntry(N, aps, 0, nterminal, es[j]);
        HeldRead(t, mem, nAction, nact, nterminal, nsymbol, noAction, placed, p, es[j]);
      }
  }

  lemma InSafeRange(t: seq<Slot>, mem: Memory, nAction: nat, nact: nat, nterminal: nat, nsymbol: nat, placed: seq<Placement>, p: Placement, la: nat)
    requires Layout(t, mem, nAction, nact, nterminal, nsymbol, placed) && p in placed && p.safe && la < nterminal
    ensures 0 <= p.offset + la < nAction && p.offset + la < |t|
    ensures t[p.offset + la].lookahead == la ==> Has(p.entries, la)
  {
    assert HeldBy(t, nAction, nterminal, p) && TokensExact(t, nterminal, p);
    if t[p.offset + la].lookahead == la {
      assert Answers(t, p.offset, p.offset + la);
    }
  }

  lemma CodeOfEntry(N: Numbers, aps: seq<Action>, lo: nat, hi: nat, e: Slot)
    requires e in Entries(N, aps, lo, hi) && CodesPositive(N, aps)
    ensures e.action >= 0
  {
    EntriesMembers(N, aps, lo, hi);
  }

  /** Looking up a nonterminal that the state has an action on always finds it. */
  lemma GotoRead(N: Numbers, t: seq<Slot>, mem: Memory, nAction: nat, nact: nat, nterminal: nat, nsymbol: nat, noAction: nat,
                 placed: seq<Placement>, aps: seq<Action>, ofs: Offsets, a: nat)
    requires Layout(t, mem, nAction, nact, nterminal, nsymbol, placed) && Packed(N, nterminal, nsymbol, placed, aps, ofs)
    requires Deterministic(aps) && CodesPositive(N, aps) && nterminal <= a < nsymbol && LiveOn(aps, a) != []
    ensures ofs.nonterminal.Some?
    ensures var i := ofs.nonterminal.value + a;
      && 0 <= i < nact && YyLookahead(t, mem, nAction, nact, nterminal, nsymbol)[i] == a
      && YyAction(t, mem, nact, noAction)[i] == Code(N, LiveOn(aps, a)[0])
  {
    hide Layout;
    var es := Entries(N, aps, nterminal, nsymbol);
    EntriesAnswer(N, aps, nterminal, nsymbol, a);
    var j :| 0 <= j < |es| && es[j].lookahead == a;
    assert es[j] in es;
    CodeOfEntry(N, aps, nterminal, nsymbol, es[j]);
    var o := ofs.nonterminal.value;
    HeldRead(t, mem, nAction, nact, nterminal, nsymbol, noAction, placed, Placement(o, es, false), es[j]);
  }
}
