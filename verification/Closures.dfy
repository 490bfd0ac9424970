/** Configurations (rules with a dot) and `Configlist_closure`. */
module Closures {
  import opened Grammars
  import opened FirstSets
  import MergeSort

  datatype Item = Item(rule: nat, dot: nat)

  predicate ValidItem(g: Grammar, x: Item) {
    x.rule < |g.rules| && x.dot <= |g.rules[x.rule].rhs|
  }

  predicate AtEnd(g: Grammar, x: Item)
    requires ValidItem(g, x)
  {
    x.dot == |g.rules[x.rule].rhs|
  }

  /** The dot of `x` stands before the symbol `s`. */
  predicate Before(g: Grammar, x: Item, s: Symbol) {
    x.rule < |g.rules| && x.dot < |g.rules[x.rule].rhs| && g.rules[x.rule].rhs[x.dot] == s
  }

  function Lhs(g: Grammar, x: Item): nat
    requires ValidItem(g, x)
  {
    g.rules[x.rule].lhs
  }

  function Advance(x: Item): Item { Item(x.rule, x.dot + 1) }

  /** What follows the symbol after the dot. */
  function Rest(g: Grammar, x: Item): seq<Symbol> {
    if x.rule < |g.rules| && x.dot < |g.rules[x.rule].rhs| then g.rules[x.rule].rhs[x.dot + 1..] else []
  }

  ghost function AllItems(g: Grammar): set<Item> {
    set r, d | 0 <= r < |g.rules| && 0 <= d <= |g.rules[r].rhs| :: Item(r, d)
  }

  predicate ValidItems(g: Grammar, s: seq<Item>) {
    forall i :: 0 <= i < |s| ==> ValidItem(g, s[i])
  }

  ghost function Members(s: seq<Item>): set<Item> { set x | x in s }

  // ---- The specification of the closure ----

  /** Configuration `y`, with its dot before a nonterminal, brings in `x`, a rule of that
      nonterminal with the dot at the left end. */
  predicate Spawns(g: Grammar, y: Item, x: Item) {
    ValidItem(g, x) && x.dot == 0 && Before(g, y, Nonterminal(Lhs(g, x)))
  }

  /** `x` is brought in from the basis within `n` rounds. */
  ghost predicate InClosureBy(g: Grammar, basis: seq<Item>, n: nat, x: Item) {
    if n == 0 then x in basis
    else InClosureBy(g, basis, n - 1, x) || exists y :: InClosureBy(g, basis, n - 1, y) && Spawns(g, y, x)
  }

  ghost predicate InClosure(g: Grammar, basis: seq<Item>, x: Item) {
    exists n: nat :: InClosureBy(g, basis, n, x)
  }

  lemma SpawnInClosure(g: Grammar, basis: seq<Item>, y: Item, x: Item)
    requires InClosure(g, basis, y) && Spawns(g, y, x)
    ensures InClosure(g, basis, x)
  {
    var n: nat :| InClosureBy(g, basis, n, y);
    assert InClosureBy(g, basis, n + 1, x);
  }

  /** The result of a closure: the configurations, their first follow symbols, and the
      links along which follow sets are passed on inside the state. */
  datatype Closed = Closed(items: seq<Item>, seeds: map<Item, set<nat>>, links: set<(Item, Item)>)

  /** The follow symbols `y` contributes to the configurations it brings in. */
  predicate Contributes(g: Grammar, an: Analysis, y: Item, x: Item, t: nat)
    requires Sized(g, an)
  {
    Spawns(g, y, x) && t in FirstOfSeq(g, an, Rest(g, y))
  }

  predicate Linked(g: Grammar, an: Analysis, y: Item, x: Item)
    requires Sized(g, an)
  {
    Spawns(g, y, x) && AllLambda(g, an, Rest(g, y))
  }

  ghost predicate SeedExact(g: Grammar, an: Analysis, basis: seq<Item>, seed: set<nat>, sources: seq<Item>, x: Item, s: set<nat>)
    requires Sized(g, an)
  {
    forall t: nat :: t in s <==> (x in basis && t in seed) || exists y :: y in sources && Contributes(g, an, y, x, t)
  }

  /** `c` is the closure of `basis`, whose members start with the follow set `seed`. */
  ghost predicate IsClosure(g: Grammar, an: Analysis, basis: seq<Item>, seed: set<nat>, c: Closed)
    requires Sized(g, an)
  {
    && ValidItems(g, c.items) && MergeSort.NoRepeats(c.items)
    && (forall x :: x in c.items <==> InClosure(g, basis, x))
    && c.seeds.Keys == Members(c.items)
    && (forall x :: x in c.items ==> SeedExact(g, an, basis, seed, c.items, x, c.seeds[x]))
    && (forall y, x :: (y, x) in c.links <==> y in c.items && Linked(g, an, y, x))
  }

  // ---- The loops ----

  /** The scan over what follows a nonterminal: collect FIRST until a symbol that cannot vanish. */
  method ScanRest(g: Grammar, an: Analysis, rest: seq<Symbol>) returns (first: set<nat>, vanishes: bool)
    requires Sized(g, an)
    ensures first == FirstOfSeq(g, an, rest) && vanishes == AllLambda(g, an, rest)
  {
    first := {};
    var i := 0;
    while i < |rest|
      invariant 0 <= i <= |rest|
      invariant AllLambda(g, an, rest[..i]) && first == FirstOfSeq(g, an, rest[..i])
    {
      PrefixFirst(g, an, rest, i);
      first := first + FirstOf(g, an, rest[i]);
      if !Lambda(g, an, rest[i]) {
        WholeFirst(g, an, rest, i);
        return first, false;
      }
      assert rest[..i + 1] == rest[..i] + [rest[i]];
      i := i + 1;
    }
    assert rest[..i] == rest;
    return first, true;
  }

  /** The closure under construction: configurations before `k` have been worked off. */
  ghost predicate Partial(g: Grammar, an: Analysis, basis: seq<Item>, seed: set<nat>, c: Closed, k: nat)
    requires Sized(g, an)
  {
    && k <= |c.items| && ValidItems(g, c.items) && MergeSort.NoRepeats(c.items)
    && (forall x :: x in basis ==> x in c.items)
    && (forall x :: x in c.items ==> InClosure(g, basis, x))
    && (forall y, x :: y in c.items[..k] && Spawns(g, y, x) ==> x in c.items)
    && c.seeds.Keys == Members(c.items)
    && (forall x :: x in c.items ==> SeedExact(g, an, basis, seed, c.items[..k], x, c.seeds[x]))
    && (forall y, x :: (y, x) in c.links <==> y in c.items[..k] && Linked(g, an, y, x))
  }

  /** Half way through configuration `y = items[k]`: rules before `r` have been brought in. */
  ghost predicate Halfway(g: Grammar, an: Analysis, c0: Closed, c: Closed, k: nat, r: nat)
    requires Sized(g, an)
  {
    && k < |c0.items|
    && HalfItems(g, c0, c.items, c0.items[k], r)
    && HalfSeeds(g, an, c0, c, c0.items[k], r)
    && HalfLinks(g, an, c0, c.links, c0.items[k], r)
  }

  ghost predicate HalfItems(g: Grammar, c0: Closed, items: seq<Item>, y: Item, r: nat) {
    && |c0.items| <= |items| && items[..|c0.items|] == c0.items
    && ValidItems(g, items) && MergeSort.NoRepeats(items)
    && forall x :: x in items <==> x in c0.items || (x.rule < r && Spawns(g, y, x))
  }

  ghost predicate HalfSeeds(g: Grammar, an: Analysis, c0: Closed, c: Closed, y: Item, r: nat)
    requires Sized(g, an)
  {
    && c0.seeds.Keys == Members(c0.items) && c.seeds.Keys == Members(c.items)
    && forall x :: x in c.items ==> SeedStep(g, an, c0, y, x, r, c.seeds[x])
  }

  ghost predicate HalfLinks(g: Grammar, an: Analysis, c0: Closed, links: set<(Item, Item)>, y: Item, r: nat)
    requires Sized(g, an)
  {
    forall z, x :: (z, x) in links <==> (z, x) in c0.links || (z == y && x.rule < r && Linked(g, an, z, x))
  }

  ghost predicate SeedStep(g: Grammar, an: Analysis, c0: Closed, y: Item, x: Item, r: nat, s: set<nat>)
    requires Sized(g, an)
  {
    forall t: nat :: t in s <==> (x in c0.seeds && t in c0.seeds[x]) || (x.rule < r && Contributes(g, an, y, x, t))
  }

  /** `Configlist_add` followed by the additions to the follow set and the link. */
  function BringIn(c: Closed, y: Item, x: Item, first: set<nat>, vanishes: bool): Closed {
    Closed(if x in c.items then c.items else c.items + [x],
           c.seeds[x := (if x in c.seeds then c.seeds[x] else {}) + first],
           if vanishes then c.links + {(y, x)} else c.links)
  }

  lemma HalfwayStart(g: Grammar, an: Analysis, basis: seq<Item>, seed: set<nat>, c0: Closed, k: nat)
    requires Sized(g, an) && Partial(g, an, basis, seed, c0, k) && k < |c0.items|
    ensures Halfway(g, an, c0, c0, k, 0)
  {
    assert c0.items[..|c0.items|] == c0.items;
    forall x | x in c0.items ensures SeedStep(g, an, c0, c0.items[k], x, 0, c0.seeds[x]) {
      assert x in c0.seeds.Keys;
    }
  }

  lemma SpawnedItem(g: Grammar, y: Item, x: Item, r: nat)
    requires x.rule == r && Spawns(g, y, x)
    ensures x == Item(r, 0)
  {
  }

  lemma ItemsStep(g: Grammar, c0: Closed, items: seq<Item>, y: Item, r: nat)
    requires HalfItems(g, c0, items, y, r) && r < |g.rules|
    ensures Spawns(g, y, Item(r, 0)) ==> HalfItems(g, c0, if Item(r, 0) in items then items else items + [Item(r, 0)], y, r + 1)
    ensures !Spawns(g, y, Item(r, 0)) ==> HalfItems(g, c0, items, y, r + 1)
  {
    var x0 := Item(r, 0);
    var items' := if Spawns(g, y, x0) && x0 !in items then items + [x0] else items;
    assert items'[..|c0.items|] == items[..|c0.items|];
    forall x ensures x in items' <==> x in c0.items || (x.rule < r + 1 && Spawns(g, y, x)) {
      assert x in items' <==> x in items || (Spawns(g, y, x0) && x == x0);
      if x.rule == r && Spawns(g, y, x) { SpawnedItem(g, y, x, r); }
    }
  }

  lemma SeedStepNext(g: Grammar, an: Analysis, c0: Closed, y: Item, x: Item, r: nat, s: set<nat>, s': set<nat>)
    requires Sized(g, an) && SeedStep(g, an, c0, y, x, r, s)
    requires s' == if x.rule == r && Spawns(g, y, x) then s + FirstOfSeq(g, an, Rest(g, y)) else s
    ensures SeedStep(g, an, c0, y, x, r + 1, s')
  {
  }

  lemma SeedsStep(g: Grammar, an: Analysis, c0: Closed, c: Closed, y: Item, r: nat, first: set<nat>, vanishes: bool)
    requires Sized(g, an) && HalfItems(g, c0, c.items, y, r) && HalfSeeds(g, an, c0, c, y, r) && r < |g.rules|
    requires Spawns(g, y, Item(r, 0)) && first == FirstOfSeq(g, an, Rest(g, y))
    ensures HalfSeeds(g, an, c0, BringIn(c, y, Item(r, 0), first, vanishes), y, r + 1)
  {
    hide FirstOfSeq, Rest, ValidItems, MergeSort.NoRepeats, SeedStep;
    var x0 := Item(r, 0);
    var c' := BringIn(c, y, x0, first, vanishes);
    assert c'.seeds.Keys == Members(c'.items);
    forall x | x in c'.items ensures SeedStep(g, an, c0, y, x, r + 1, c'.seeds[x]) {
      assert x in c.items || x == x0;
      if x !in c.items { SeedFresh(g, an, c0, y, x, r); }
      if x.rule == r && Spawns(g, y, x) { SpawnedItem(g, y, x, r); }
      SeedStepNext(g, an, c0, y, x, r, if x in c.items then c.seeds[x] else {}, c'.seeds[x]);
    }
  }

  lemma SeedFresh(g: Grammar, an: Analysis, c0: Closed, y: Item, x: Item, r: nat)
    requires Sized(g, an) && x !in c0.seeds && !(x.rule < r && Spawns(g, y, x))
    ensures SeedStep(g, an, c0, y, x, r, {})
  {
  }

  lemma LinksStep(g: Grammar, an: Analysis, c0: Closed, links: set<(Item, Item)>, y: Item, r: nat, vanishes: bool)
    requires Sized(g, an) && r < |g.rules| && HalfLinks(g, an, c0, links, y, r)
    requires Spawns(g, y, Item(r, 0)) && vanishes == AllLambda(g, an, Rest(g, y))
    ensures HalfLinks(g, an, c0, if vanishes then links + {(y, Item(r, 0))} else links, y, r + 1)
  {
    hide AllLambda, Rest;
    forall x: Item | x.rule == r ensures Linked(g, an, y, x) <==> vanishes && x == Item(r, 0) { }
  }

  lemma HalfwayStep(g: Grammar, an: Analysis, c0: Closed, c: Closed, k: nat, r: nat, first: set<nat>, vanishes: bool)
    requires Sized(g, an) && Halfway(g, an, c0, c, k, r) && r < |g.rules| && Spawns(g, c0.items[k], Item(r, 0))
    requires first == FirstOfSeq(g, an, Rest(g, c0.items[k])) && vanishes == AllLambda(g, an, Rest(g, c0.items[k]))
    ensures Halfway(g, an, c0, BringIn(c, c0.items[k], Item(r, 0), first, vanishes), k, r + 1)
  {
    hide HalfItems, HalfSeeds, HalfLinks, Spawns, FirstOfSeq, AllLambda, Rest;
    var y := c0.items[k];
    ItemsStep(g, c0, c.items, y, r);
    SeedsStep(g, an, c0, c, y, r, first, vanishes);
    LinksStep(g, an, c0, c.links, y, r, vanishes);
  }

  lemma HalfwaySkip(g: Grammar, an: Analysis, c0: Closed, c: Closed, k: nat, r: nat)
    requires Sized(g, an) && Halfway(g, an, c0, c, k, r) && r < |g.rules|
    requires !Spawns(g, c0.items[k], Item(r, 0))
    ensures Halfway(g, an, c0, c, k, r + 1)
  {
    hide HalfItems, SeedStep;
    var y := c0.items[k];
    ItemsStep(g, c0, c.items, y, r);
    forall x: Item | x.rule == r ensures !Spawns(g, y, x) { }
    forall x | x in c.items ensures SeedStep(g, an, c0, y, x, r + 1, c.seeds[x]) {
      SeedStepNext(g, an, c0, y, x, r, c.seeds[x], c.seeds[x]);
    }
  }

  lemma HalfwayEnd(g: Grammar, an: Analysis, basis: seq<Item>, seed: set<nat>, c0: Closed, c: Closed, k: nat)
    requires Sized(g, an) && Partial(g, an, basis, seed, c0, k) && k < |c0.items|
    requires Halfway(g, an, c0, c, k, |g.rules|)
    ensures Partial(g, an, basis, seed, c, k + 1)
    ensures |c0.items| <= |c.items| && c.items[..|c0.items|] == c0.items
  {
    hide SeedExact, SeedStep, InClosure, AllLambda, FirstOfSeq;
    var y := c0.items[k];
    WorkedOff(c0.items, c.items, k);
    assert y in c0.items;
    forall x | x in c.items ensures InClosure(g, basis, x) {
      if x !in c0.items { SpawnInClosure(g, basis, y, x); }
    }
    SeedsEnd(g, an, basis, seed, c0, c, k);
  }

  lemma WorkedOff(before: seq<Item>, after: seq<Item>, k: nat)
    requires k < |before| <= |after| && after[..|before|] == before
    ensures after[..k + 1] == before[..k] + [before[k]]
    ensures forall z :: z in after[..k + 1] <==> z in before[..k] || z == before[k]
  {
    assert forall i :: 0 <= i < |before| ==> after[i] == after[..|before|][i];
    assert after[..k + 1] == before[..k] + [before[k]];
  }

  lemma SeedsEnd(g: Grammar, an: Analysis, basis: seq<Item>, seed: set<nat>, c0: Closed, c: Closed, k: nat)
    requires Sized(g, an) && Partial(g, an, basis, seed, c0, k) && k < |c0.items|
    requires Halfway(g, an, c0, c, k, |g.rules|)
    requires forall z :: z in c.items[..k + 1] <==> z in c0.items[..k] || z == c0.items[k]
    ensures forall x :: x in c.items ==> SeedExact(g, an, basis, seed, c.items[..k + 1], x, c.seeds[x])
  {
    forall x | x in c.items ensures SeedExact(g, an, basis, seed, c.items[..k + 1], x, c.seeds[x]) {
      assert SeedStep(g, an, c0, c0.items[k], x, |g.rules|, c.seeds[x]);
      SeedCombine(g, an, basis, seed, c0, c0.items[..k], c.items[..k + 1], c0.items[k], x, c.seeds[x]);
    }
  }

  lemma SeedCombine(g: Grammar, an: Analysis, basis: seq<Item>, seed: set<nat>, c0: Closed,
                    before: seq<Item>, after: seq<Item>, y: Item, x: Item, s: set<nat>)
    requires Sized(g, an) && SeedStep(g, an, c0, y, x, |g.rules|, s) && ValidItem(g, x)
    requires c0.seeds.Keys == Members(c0.items)
    requires x in c0.items ==> SeedExact(g, an, basis, seed, before, x, c0.seeds[x])
    requires x !in c0.items ==> x !in basis && forall z :: z in before ==> !Spawns(g, z, x)
    requires forall z :: z in after <==> z in before || z == y
    ensures SeedExact(g, an, basis, seed, after, x, s)
  {
    forall t: nat ensures t in s <==> (x in basis && t in seed) || exists z :: z in after && Contributes(g, an, z, x, t) {
      if x in c0.items {
        assert t in c0.seeds[x] <==> (x in basis && t in seed) || exists z :: z in before && Contributes(g, an, z, x, t);
      }
      if Contributes(g, an, y, x, t) {
        assert y in after;
      }
      if z :| z in before && Contributes(g, an, z, x, t) {
        assert z in after;
      }
    }
  }

  /** Work off configuration `k`: bring in every rule of the nonterminal after its dot. */
  method BringInAll(g: Grammar, an: Analysis, ghost basis: seq<Item>, ghost seed: set<nat>, c0: Closed, k: nat) returns (c: Closed)
    requires Sized(g, an) && Partial(g, an, basis, seed, c0, k) && k < |c0.items|
    ensures Partial(g, an, basis, seed, c, k + 1)
    ensures |c0.items| <= |c.items| && c.items[..|c0.items|] == c0.items
  {
    hide Partial, Halfway, FirstOfSeq, AllLambda;
    var y := c0.items[k];
    c := c0;
    HalfwayStart(g, an, basis, seed, c0, k);
    for r := 0 to |g.rules|
      invariant Halfway(g, an, c0, c, k, r)
    {
      if Before(g, y, Nonterminal(g.rules[r].lhs)) {
        var first, vanishes := ScanRest(g, an, Rest(g, y));
        HalfwayStep(g, an, c0, c, k, r, first, vanishes);
        c := BringIn(c, y, Item(r, 0), first, vanishes);
      } else {
        HalfwaySkip(g, an, c0, c, k, r);
      }
    }
    HalfwayEnd(g, an, basis, seed, c0, c, k);
  }

  /** `Configlist_closure`: the list grows while it is walked; the result is exactly the set of
      configurations derivable from the basis, with exact follow seeds and links. */
  method Closure(g: Grammar, an: Analysis, basis: seq<Item>, seed: set<nat>) returns (c: Closed)
    requires Sized(g, an) && ValidItems(g, basis) && MergeSort.NoRepeats(basis)
    ensures IsClosure(g, an, basis, seed, c)
  {
    hide Partial, IsClosure;
    c := Closed(basis, map x | x in basis :: seed, {});
    PartialStart(g, an, basis, seed);
    var k := 0;
    while k < |c.items|
      invariant Partial(g, an, basis, seed, c, k) && k <= |c.items|
      decreases AllItems(g) - Members(c.items[..k])
    {
      ghost var was := c;
      c := BringInAll(g, an, basis, seed, c, k);
      Progress(g, an, basis, seed, was, c, k);
      k := k + 1;
    }
    PartialEnd(g, an, basis, seed, c);
  }

  lemma Progress(g: Grammar, an: Analysis, basis: seq<Item>, seed: set<nat>, was: Closed, c: Closed, k: nat)
    requires Sized(g, an) && Partial(g, an, basis, seed, was, k) && k < |was.items|
    requires Partial(g, an, basis, seed, c, k + 1) && |was.items| <= |c.items| && c.items[..|was.items|] == was.items
    ensures k + 1 <= |c.items|
    ensures AllItems(g) - Members(c.items[..k + 1]) < AllItems(g) - Members(was.items[..k])
  {
    var y := was.items[k];
    WorkedOff(was.items, c.items, k);
    assert ValidItem(g, y) && y in AllItems(g);
    assert y !in was.items[..k];
    assert y in Members(c.items[..k + 1]) && y !in Members(was.items[..k]);
    assert Members(was.items[..k]) <= Members(c.items[..k + 1]);
    assert y in AllItems(g) - Members(was.items[..k]) && y !in AllItems(g) - Members(c.items[..k + 1]);
  }

  lemma PartialStart(g: Grammar, an: Analysis, basis: seq<Item>, seed: set<nat>)
    requires Sized(g, an) && ValidItems(g, basis) && MergeSort.NoRepeats(basis)
    ensures Partial(g, an, basis, seed, Closed(basis, map x | x in basis :: seed, {}), 0)
  {
    forall x | x in basis ensures InClosure(g, basis, x) {
      assert InClosureBy(g, basis, 0, x);
    }
  }

  lemma PartialEnd(g: Grammar, an: Analysis, basis: seq<Item>, seed: set<nat>, c: Closed)
    requires Sized(g, an) && Partial(g, an, basis, seed, c, |c.items|)
    ensures IsClosure(g, an, basis, seed, c)
  {
    assert c.items[..|c.items|] == c.items;
    forall x | InClosure(g, basis, x) ensures x in c.items {
      var n: nat :| InClosureBy(g, basis, n, x);
      ClosedUnder(g, basis, c.items, n, x);
    }
  }

  lemma {:induction false} ClosedUnder(g: Grammar, basis: seq<Item>, items: seq<Item>, n: nat, x: Item)
    requires forall z :: z in basis ==> z in items
    requires forall y, z :: y in items && Spawns(g, y, z) ==> z in items
    requires InClosureBy(g, basis, n, x)
    ensures x in items
  {
    if n > 0 {
      if InClosureBy(g, basis, n - 1, x) {
        ClosedUnder(g, basis, items, n - 1, x);
      } else {
        var y :| InClosureBy(g, basis, n - 1, y) && Spawns(g, y, x);
        ClosedUnder(g, basis, items, n - 1, y);
      }
    }
  }
}
