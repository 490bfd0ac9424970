/** What the follow sets mean: a token follows a configuration exactly if it can come after it on
    some path from the start to its state. */
module LookaheadPaths {
  import opened Grammars
  import opened FirstSets
  import opened Closures
  import opened Automata
  import opened StackInvariant
  import opened Driver
  import opened FollowSets
  import opened Lookaheads
  import opened ActionLists
  import opened Completeness
  import opened CompressionRuns
  import MergeSort

  /** No token class is empty, so that every shift can be taken. */
  ghost predicate ClassesFilled(g: Grammar) {
    forall r, i :: 0 <= r < |g.rules| && 0 <= i < |g.rules[r].rhs| && g.rules[r].rhs[i].MultiTerminal? ==> g.rules[r].rhs[i].subs != []
  }

  /** Token `t` may come once `x` is complete, on some path to state `k`. */
  ghost predicate ComesAfter(m: Analysed, k: nat, x: Item, t: nat)
    requires Sized(m.g, m.an)
  {
    exists path: seq<nat>, majors: seq<nat> :: AfterOn(m, path, majors, k, x, t)
  }

  ghost predicate AfterOn(m: Analysed, path: seq<nat>, majors: seq<nat>, k: nat, x: Item, t: nat)
    requires Sized(m.g, m.an)
  {
    OnPath(m, path, majors) && TopOf(path) == k && Valid(m, path, x, t)
  }

  /** The follow sets hold exactly the tokens that can come after. */
  ghost predicate FollowExact(m: Analysed)
    requires Sized(m.g, m.an)
  {
    |m.fws| == |m.cfgs| && forall c: nat, t: nat :: c < |m.cfgs| ==> (t in m.fws[c] <==> ComesAfter(m, m.cfgs[c].state, m.cfgs[c].item, t))
  }

  // ---- Paths to every state ----

  /** A symbol number that a shift can be taken on. */
  lemma SomeMajor(m: Analysed, k: nat, sh: Shift) returns (major: nat)
    requires Wf(m) && k < |m.states| && sh in m.states[k].shifts && ClassesFilled(m.g)
    ensures Edge(m.g, m.states, k, major, sh.target)
  {
    ShiftFits(m.g, m.an, m.states, k, sh);
    var y :| y in m.states[k].closed.items && Before(m.g, y, sh.sym);
    ShiftSymbolValid(m, k, sh);
    hide Wf;
    major := match sh.sym case Terminal(t) => t case Nonterminal(a) => a case MultiTerminal(ts) => ts[0];
    assert Covers(m.g, sh.sym, major);
  }

  lemma {:induction false} PathOn(m: Analysed, n: nat, path: seq<nat>, majors: seq<nat>, k: nat) returns (path': seq<nat>, majors': seq<nat>)
    requires Wf(m) && ClassesFilled(m.g) && OnPath(m, path, majors) && LeadsIn(m.states, n, TopOf(path), k)
    ensures OnPath(m, path', majors') && TopOf(path') == k
    decreases n
  {
    if n == 0 {
      path', majors' := path, majors;
    } else {
      var c: nat :| ShiftsInto(m.states, TopOf(path), c) && LeadsIn(m.states, n - 1, c, k);
      var sh :| sh in m.states[TopOf(path)].shifts && sh.target == c;
      var major := SomeMajor(m, TopOf(path), sh);
      hide Wf, ClassesFilled, Edge;
      LongerPath(m.g, m.states, path, majors, major, c);
      path', majors' := PathOn(m, n - 1, path + [c], majors + [major], k);
    }
  }

  lemma PathTo(m: Analysed, k: nat) returns (path: seq<nat>, majors: seq<nat>)
    requires Wf(m) && ClassesFilled(m.g) && k < |m.states|
    ensures OnPath(m, path, majors) && TopOf(path) == k
  {
    assert Leads(m.states, 0, k);
    var n: nat :| LeadsIn(m.states, n, 0, k);
    hide Wf, ClassesFilled;
    path, majors := PathOn(m, n, [0], [], k);
  }

  // ---- Follow sets hold nothing else ----

  lemma SeedComes(m: Analysed, k: nat, x: Item, t: nat)
    requires WellAnalysed(m) && ClassesFilled(m.g) && Holds(m, k, x) && x in m.states[k].closed.seeds && t in m.states[k].closed.seeds[x]
    ensures ComesAfter(m, k, x, t)
  {
    ItemFacts(m, k, x);
    assert StateOk(m.g, m.an, m.states[k], k);
    var path, majors := PathTo(m, k);
    hide WellAnalysed, Wf, ClassesFilled, OnPath, FirstOfSeq;
    if x in m.states[k].basis && t in Seed(k) {
      assert ValidIn(m, 0, [0], x, t);
      StartPath(m);
      assert AfterOn(m, [0], [], k, x, t);
    } else {
      var y :| y in m.states[k].closed.items && Contributes(m.g, m.an, y, x, t);
      assert BroughtIn(m, 1, path, y, x, t);
      assert ValidIn(m, 1, path, x, t);
      assert AfterOn(m, path, majors, k, x, t);
    }
  }

  lemma PassedComes(m: Analysed, a: Config, b: Config, t: nat)
    requires WellAnalysed(m) && ClassesFilled(m.g) && Holds(m, a.state, a.item) && Holds(m, b.state, b.item)
    requires Propagates(m.g, m.states, a, b) && ComesAfter(m, a.state, a.item, t)
    ensures ComesAfter(m, b.state, b.item, t)
  {
    var path, majors :| AfterOn(m, path, majors, a.state, a.item, t);
    var n: nat :| ValidIn(m, n, path, a.item, t);
    ItemFacts(m, a.state, a.item);
    if a.state == b.state && (a.item, b.item) in m.states[a.state].closed.links {
      hide WellAnalysed, Wf, ClassesFilled, FirstOfSeq, OnPath;
      assert BroughtIn(m, n + 1, path, a.item, b.item, t);
      assert ValidIn(m, n + 1, path, b.item, t);
      assert AfterOn(m, path, majors, b.state, b.item, t);
    } else {
      var sh :| sh in m.states[a.state].shifts && sh.target == b.state && Before(m.g, a.item, sh.sym);
      var major := SomeMajor(m, a.state, sh);
      hide WellAnalysed, Wf, ClassesFilled, FirstOfSeq, Edge;
      LongerPath(m.g, m.states, path, majors, major, b.state);
      var path' := path + [b.state];
      assert path'[..|path'| - 1] == path;
      assert ValidIn(m, n + 1, path', b.item, t);
      assert AfterOn(m, path', majors + [major], b.state, b.item, t);
    }
  }

  lemma {:induction false} InheritedComes(m: Analysed, links: Links, init: Sets, n: nat, a: nat, c: nat, t: nat)
    requires WellAnalysed(m) && ClassesFilled(m.g) && LinksOf(m.g, m.states, m.cfgs, links) && SeedsOf(m.states, m.cfgs, init)
    requires a < |m.cfgs| && c < |m.cfgs| && t in init[a] && ReachesIn(links, n, a, c)
    ensures ComesAfter(m, m.cfgs[c].state, m.cfgs[c].item, t)
    decreases n
  {
    hide ComesAfter, Propagates, FollowClosed, LambdaClosed, FirstClosed, IsAutomaton, ValidGrammar, NoStartOnRhs, ClassesFilled;
    assert m.cfgs[a] in m.cfgs && m.cfgs[c] in m.cfgs;
    if n == 0 {
      assert SeedAt(m.states, m.cfgs[a], init[a]);
      SeedComes(m, m.cfgs[a].state, m.cfgs[a].item, t);
    } else {
      var mid: nat :| ReachesIn(links, n - 1, a, mid) && mid < |links| && c in links[mid];
      assert m.cfgs[mid] in m.cfgs;
      InheritedComes(m, links, init, n - 1, a, mid, t);
      assert Linked2(m.g, m.states, m.cfgs, mid, c);
      PassedComes(m, m.cfgs[mid], m.cfgs[c], t);
    }
  }

  /** The computed follow sets are exact. */
  lemma FollowSetsExact(m: Analysed, links: Links, init: Sets)
    requires WellAnalysed(m) && ClassesFilled(m.g)
    requires LinksOf(m.g, m.states, m.cfgs, links) && SeedsOf(m.states, m.cfgs, init) && LeastFollow(links, init, m.fws)
    ensures FollowExact(m)
  {
    assert Sized(m.g, m.an) && |m.fws| == |m.cfgs| && MergeSort.NoRepeats(m.cfgs);
    forall c: nat, t: nat | c < |m.cfgs| ensures t in m.fws[c] <==> ComesAfter(m, m.cfgs[c].state, m.cfgs[c].item, t) {
      if t in m.fws[c] {
        assert Inherits(links, init, c, t);
        var a: nat :| a < |init| && t in init[a] && Reaches(links, a, c);
        var n: nat :| ReachesIn(links, n, a, c);
        hide WellAnalysed, ClassesFilled, LinksOf, LeastFollow, ComesAfter;
        InheritedComes(m, links, init, n, a, c, t);
      }
      if ComesAfter(m, m.cfgs[c].state, m.cfgs[c].item, t) { AfterFollows(m, c, t); }
    }
  }

  lemma AfterFollows(m: Analysed, c: nat, t: nat)
    requires WellAnalysed(m) && c < |m.cfgs| && ComesAfter(m, m.cfgs[c].state, m.cfgs[c].item, t)
    ensures c < |m.fws| && t in m.fws[c]
  {
    var path, majors :| AfterOn(m, path, majors, m.cfgs[c].state, m.cfgs[c].item, t);
    var n: nat :| ValidIn(m, n, path, m.cfgs[c].item, t);
    ValidFollows(m, n, path, majors, m.cfgs[c].item, t);
    hide IsAutomaton, ValidGrammar, FollowClosed, ValidIn, Valid, OnPath, LambdaClosed, FirstClosed;
    var d: nat :| d < |m.cfgs| && d < |m.fws| && m.cfgs[d] == Config(m.cfgs[c].state, m.cfgs[c].item) && t in m.fws[d];
    SameConfig(m.cfgs, c, d);
  }

  lemma SameConfig(cfgs: seq<Config>, c: nat, d: nat)
    requires MergeSort.NoRepeats(cfgs) && c < |cfgs| && d < |cfgs| && cfgs[c] == cfgs[d]
    ensures c == d
  {
  }
}
