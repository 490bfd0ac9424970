/** The propagation graph over all configurations of all states (`FindLinks`), the follow
    sets on it, and the action lists of `FindActions` before conflicts are resolved. */
module Lookaheads {
  import opened Grammars
  import opened FirstSets
  import opened Closures
  import opened Automata
  import opened Driver
  import opened FollowSets
  import MergeSort

  /** A configuration of a numbered state. */
  datatype Config = Config(state: nat, item: Item)

  /** Follow sets pass inside a state, along the links of the closure, and with the dot over a shift. */
  predicate Propagates(g: Grammar, states: seq<State>, a: Config, b: Config)
    requires a.state < |states|
  {
    || (a.state == b.state && (a.item, b.item) in states[a.state].closed.links)
    || (b.item == Advance(a.item) && exists sh :: sh in states[a.state].shifts && sh.target == b.state && Before(g, a.item, sh.sym))
  }

  ghost predicate AllConfigs(states: seq<State>, cfgs: seq<Config>) {
    && MergeSort.NoRepeats(cfgs)
    && forall c :: c in cfgs <==> c.state < |states| && c.item in states[c.state].closed.items
  }

  ghost predicate ItemsOnce(states: seq<State>) {
    forall k :: 0 <= k < |states| ==> MergeSort.NoRepeats(states[k].closed.items)
  }

  lemma AutomatonOnce(g: Grammar, an: Analysis, states: seq<State>)
    requires Sized(g, an) && IsAutomaton(g, an, states)
    ensures ItemsOnce(states)
  {
    forall k | 0 <= k < |states| ensures MergeSort.NoRepeats(states[k].closed.items) {
      assert StateOk(g, an, states[k], k);
    }
  }

  lemma OnceMore(cfgs: seq<Config>, c: Config)
    requires MergeSort.NoRepeats(cfgs) && c !in cfgs
    ensures MergeSort.NoRepeats(cfgs + [c])
  {
  }

  method ListConfigs(states: seq<State>) returns (cfgs: seq<Config>)
    requires ItemsOnce(states)
    ensures AllConfigs(states, cfgs)
  {
    cfgs := [];
    for k := 0 to |states|
      invariant MergeSort.NoRepeats(cfgs)
      invariant forall c :: c in cfgs <==> c.state < k && c.item in states[c.state].closed.items
    {
      var items := states[k].closed.items;
      assert MergeSort.NoRepeats(items);
      for i := 0 to |items|
        invariant MergeSort.NoRepeats(cfgs)
        invariant forall c :: c in cfgs <==>
          (c.state < k && c.item in states[c.state].closed.items) || (c.state == k && c.item in items[..i])
      {
        assert items[..i + 1] == items[..i] + [items[i]];
        OnceMore(cfgs, Config(k, items[i]));
        cfgs := cfgs + [Config(k, items[i])];
      }
      assert items[..|items|] == items;
    }
  }

  /** `links[i]` lists exactly the configurations that `cfgs[i]` propagates to. */
  ghost predicate LinksOf(g: Grammar, states: seq<State>, cfgs: seq<Config>, links: Links) {
    && AllConfigs(states, cfgs) && |links| == |cfgs| && ValidLinks(links)
    && forall i: nat, j: nat :: i < |cfgs| && j < |cfgs| ==> (j in links[i] <==> Linked2(g, states, cfgs, i, j))
  }

  ghost predicate Linked2(g: Grammar, states: seq<State>, cfgs: seq<Config>, i: nat, j: nat)
    requires i < |cfgs| && j < |cfgs|
  {
    cfgs[i].state < |states| && Propagates(g, states, cfgs[i], cfgs[j])
  }

  method LinksFrom(g: Grammar, states: seq<State>, cfgs: seq<Config>, i: nat) returns (out: seq<nat>)
    requires i < |cfgs| && cfgs[i].state < |states|
    ensures forall k :: 0 <= k < |out| ==> out[k] < |cfgs|
    ensures forall j: nat :: j < |cfgs| ==> (j in out <==> Linked2(g, states, cfgs, i, j))
  {
    out := [];
    for j := 0 to |cfgs|
      invariant forall k :: 0 <= k < |out| ==> out[k] < j
      invariant forall e: nat :: e < j ==> (e in out <==> Linked2(g, states, cfgs, i, e))
    {
      if Propagates(g, states, cfgs[i], cfgs[j]) {
        out := out + [j];
      }
    }
  }

  method FindLinks(g: Grammar, states: seq<State>, cfgs: seq<Config>) returns (links: Links)
    requires AllConfigs(states, cfgs)
    ensures LinksOf(g, states, cfgs, links)
  {
    hide Linked2;
    links := [];
    for i := 0 to |cfgs|
      invariant |links| == i
      invariant forall a, k :: 0 <= a < i && 0 <= k < |links[a]| ==> links[a][k] < |cfgs|
      invariant forall a: nat, j: nat :: a < i && j < |cfgs| ==> (j in links[a] <==> Linked2(g, states, cfgs, a, j))
    {
      assert cfgs[i] in cfgs;
      var out := LinksFrom(g, states, cfgs, i);
      links := links + [out];
    }
  }

  /** The follow sets each configuration starts with. */
  ghost predicate SeedsOf(states: seq<State>, cfgs: seq<Config>, init: Sets) {
    |init| == |cfgs| && forall i :: 0 <= i < |cfgs| ==> SeedAt(states, cfgs[i], init[i])
  }

  predicate SeedAt(states: seq<State>, c: Config, s: set<nat>) {
    c.state < |states| && c.item in states[c.state].closed.seeds && s == states[c.state].closed.seeds[c.item]
  }

  lemma ConfigHasSeed(g: Grammar, an: Analysis, states: seq<State>, cfgs: seq<Config>, c: Config)
    requires Sized(g, an) && IsAutomaton(g, an, states) && AllConfigs(states, cfgs) && c in cfgs
    ensures c.state < |states| && c.item in states[c.state].closed.seeds && ValidItem(g, c.item)
    ensures SeedExact(g, an, states[c.state].basis, Seed(c.state), states[c.state].closed.items, c.item, states[c.state].closed.seeds[c.item])
  {
    assert StateOk(g, an, states[c.state], c.state);
    assert c.item in states[c.state].closed.seeds.Keys;
    var items := states[c.state].closed.items;
    var i :| 0 <= i < |items| && items[i] == c.item;
    assert ValidItem(g, items[i]);
  }

  lemma SeedTerminals(g: Grammar, an: Analysis, states: seq<State>, cfgs: seq<Config>, c: Config)
    requires ValidGrammar(g) && Sized(g, an) && TerminalsOnly(g, an.first) && IsAutomaton(g, an, states) && AllConfigs(states, cfgs) && c in cfgs
    ensures c.state < |states| && c.item in states[c.state].closed.seeds
    ensures forall t :: t in states[c.state].closed.seeds[c.item] ==> t < g.nterminal
  {
    ConfigHasSeed(g, an, states, cfgs, c);
    hide IsAutomaton;
    forall t | t in states[c.state].closed.seeds[c.item] ensures t < g.nterminal {
      if !(c.item in states[c.state].basis && t in Seed(c.state)) {
        var y :| y in states[c.state].closed.items && Contributes(g, an, y, c.item, t);
        RestTerminals(g, an, y, t);
      }
    }
  }

  lemma RestTerminals(g: Grammar, an: Analysis, y: Item, t: nat)
    requires ValidGrammar(g) && Sized(g, an) && TerminalsOnly(g, an.first) && t in FirstOfSeq(g, an, Rest(g, y))
    ensures t < g.nterminal
  {
    assert y.rule < |g.rules| && ValidRule(g, g.rules[y.rule]);
    var w := Rest(g, y);
    forall i | 0 <= i < |w| ensures ValidSymbol(g, w[i]) {
      assert w[i] == g.rules[y.rule].rhs[y.dot + 1 + i];
    }
    FirstTerminals(g, an, w, t);
  }

  lemma {:induction false} FirstTerminals(g: Grammar, an: Analysis, w: seq<Symbol>, t: nat)
    requires Sized(g, an) && TerminalsOnly(g, an.first) && t in FirstOfSeq(g, an, w)
    requires forall i :: 0 <= i < |w| ==> ValidSymbol(g, w[i])
    ensures t < g.nterminal
  {
    if t in FirstOf(g, an, w[0]) {
      assert ValidSymbol(g, w[0]);
    } else {
      FirstTerminals(g, an, w[1..], t);
    }
  }

  method CollectSeeds(g: Grammar, an: Analysis, states: seq<State>, cfgs: seq<Config>) returns (init: Sets)
    requires ValidGrammar(g) && Sized(g, an) && TerminalsOnly(g, an.first) && IsAutomaton(g, an, states) && AllConfigs(states, cfgs)
    ensures SeedsOf(states, cfgs, init) && Bounded(g.nterminal, init)
  {
    hide IsAutomaton, ValidGrammar;
    init := [];
    for i := 0 to |cfgs|
      invariant |init| == i && Bounded(g.nterminal, init)
      invariant forall a :: 0 <= a < i ==> SeedAt(states, cfgs[a], init[a])
    {
      assert cfgs[i] in cfgs;
      SeedTerminals(g, an, states, cfgs, cfgs[i]);
      init := init + [states[cfgs[i].state].closed.seeds[cfgs[i].item]];
    }
  }

  // ---- Start rules are followed by the end marker only ----

  lemma StartSeed(g: Grammar, an: Analysis, states: seq<State>, cfgs: seq<Config>, c: Config)
    requires Sized(g, an) && IsAutomaton(g, an, states) && NoStartOnRhs(g) && AllConfigs(states, cfgs) && c in cfgs
    requires IsStartRule(g, c.item.rule)
    ensures c.state < |states| && c.item in states[c.state].closed.seeds && states[c.state].closed.seeds[c.item] <= {0}
  {
    ConfigHasSeed(g, an, states, cfgs, c);
    hide IsAutomaton;
    forall y ensures !Spawns(g, y, c.item) { NeverSpawned(g, y, c.item); }
  }

  /** A link into a configuration of a start rule comes from the same rule. */
  lemma StartLink(g: Grammar, an: Analysis, states: seq<State>, a: Config, b: Config)
    requires Sized(g, an) && IsAutomaton(g, an, states) && NoStartOnRhs(g) && a.state < |states|
    requires Propagates(g, states, a, b) && IsStartRule(g, b.item.rule)
    ensures a.item.rule == b.item.rule
  {
    assert StateOk(g, an, states[a.state], a.state);
    NeverSpawned(g, a.item, b.item);
    assert (a.item, b.item) !in states[a.state].closed.links;
  }

  lemma NeverSpawned(g: Grammar, y: Item, x: Item)
    requires NoStartOnRhs(g) && IsStartRule(g, x.rule)
    ensures !Spawns(g, y, x)
  {
  }

  lemma {:induction false} StartBackwards(g: Grammar, an: Analysis, states: seq<State>, cfgs: seq<Config>, links: Links, k: nat, a: nat, c: nat)
    requires Sized(g, an) && IsAutomaton(g, an, states) && NoStartOnRhs(g) && LinksOf(g, states, cfgs, links)
    requires a < |cfgs| && c < |cfgs| && ReachesIn(links, k, a, c) && IsStartRule(g, cfgs[c].item.rule)
    ensures IsStartRule(g, cfgs[a].item.rule)
  {
    hide IsAutomaton, AllConfigs, Propagates, NoStartOnRhs;
    if k > 0 {
      var m: nat :| ReachesIn(links, k - 1, a, m) && m < |links| && c in links[m];
      assert Linked2(g, states, cfgs, m, c);
      StartLink(g, an, states, cfgs[m], cfgs[c]);
      StartBackwards(g, an, states, cfgs, links, k - 1, a, m);
    }
  }

  /** The follow set of every configuration of a start rule is at most the end marker. */
  lemma StartFollow(g: Grammar, an: Analysis, states: seq<State>, cfgs: seq<Config>, links: Links, init: Sets, fws: Sets, c: nat)
    requires Sized(g, an) && IsAutomaton(g, an, states) && NoStartOnRhs(g) && LinksOf(g, states, cfgs, links)
    requires SeedsOf(states, cfgs, init) && LeastFollow(links, init, fws)
    requires c < |cfgs| && IsStartRule(g, cfgs[c].item.rule)
    ensures fws[c] <= {0}
  {
    hide IsAutomaton;
    forall t: nat | t in fws[c] ensures t == 0 {
      assert Inherits(links, init, c, t);
      var a: nat :| a < |init| && t in init[a] && Reaches(links, a, c);
      var k: nat :| ReachesIn(links, k, a, c);
      StartBackwards(g, an, states, cfgs, links, k, a, c);
      assert cfgs[a] in cfgs;
      StartSeed(g, an, states, cfgs, cfgs[a]);
      assert SeedAt(states, cfgs[a], init[a]);
    }
  }

  // ---- The follow sets are closed under everything that feeds them ----

  ghost predicate FollowClosed(g: Grammar, states: seq<State>, cfgs: seq<Config>, fws: Sets) {
    && |fws| == |cfgs|
    && (forall c: nat :: c < |cfgs| ==> SeededAt(states, cfgs[c], fws[c]))
    && (forall i: nat, j: nat :: i < |cfgs| && j < |cfgs| && Linked2(g, states, cfgs, i, j) ==> fws[i] <= fws[j])
  }

  predicate SeededAt(states: seq<State>, c: Config, s: set<nat>) {
    c.state < |states| && c.item in states[c.state].closed.seeds && states[c.state].closed.seeds[c.item] <= s
  }

  lemma FollowsClosed(g: Grammar, states: seq<State>, cfgs: seq<Config>, links: Links, init: Sets, fws: Sets)
    requires LinksOf(g, states, cfgs, links) && SeedsOf(states, cfgs, init) && LeastFollow(links, init, fws)
    ensures FollowClosed(g, states, cfgs, fws)
  {
    hide Linked2, AllConfigs;
    forall c: nat | c < |cfgs| ensures SeededAt(states, cfgs[c], fws[c]) {
      assert SeedAt(states, cfgs[c], init[c]);
      forall t: nat | t in init[c] ensures t in fws[c] {
        assert ReachesIn(links, 0, c, c);
        assert Inherits(links, init, c, t);
      }
    }
    forall i: nat, j: nat | i < |cfgs| && j < |cfgs| && Linked2(g, states, cfgs, i, j) ensures fws[i] <= fws[j] {
      forall t: nat | t in fws[i] ensures t in fws[j] {
        assert Inherits(links, init, i, t);
        var a: nat :| a < |init| && t in init[a] && Reaches(links, a, i);
        ReachesLink(links, a, i, j);
        assert Inherits(links, init, j, t);
      }
    }
  }
}
