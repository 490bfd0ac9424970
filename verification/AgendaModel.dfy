/** The rule agenda: live activations in a hash map, scheduled through a lazily cleaned
    priority queue.  It refines a plain finite map with "remove the greatest in focus". */
module AgendaModel {

  import opened Wrappers

  /** The scheduling attributes of a rule. */
  datatype Rule = Rule(name: string, salience: int, agendaGroup: Option<string>, activationGroup: Option<string>)

  /** A matched token: a chain of facts ending in the root node of depth 0. */
  datatype Wme = Root | Node(parent: Wme, factId: Option<int>, depth: int)

  datatype Activation = Activation(rule: Rule, wme: Option<Wme>, hash: nat)

  datatype Popped = Popped(salience: int, activation: Activation)

  datatype Entry = Entry(salience: int, hash: nat)

  /** `std::pair` ordering. */
  predicate Leq(a: Entry, b: Entry) {
    a.salience < b.salience || (a.salience == b.salience && a.hash <= b.hash)
  }

  // ---- The priority queue ----

  predicate IsTop(q: multiset<Entry>, e: Entry) {
    e in q && forall f :: f in q ==> Leq(f, e)
  }

  lemma TopStep(q: multiset<Entry>, e: Entry, m: Entry)
    requires e in q && IsTop(q - multiset{e}, m)
    ensures IsTop(q, if Leq(e, m) then m else e)
  {
    forall f | f in q ensures Leq(f, if Leq(e, m) then m else e) {
      assert f in q - multiset{e} || f == e;
    }
  }

  lemma {:induction false} TopExists(q: multiset<Entry>) returns (top: Entry)
    requires q != multiset{}
    ensures IsTop(q, top)
    decreases |q|
  {
    var e :| e in q;
    if q == multiset{e} {
      top := e;
    } else {
      assert q == multiset{e} + (q - multiset{e});
      var m := TopExists(q - multiset{e});
      TopStep(q, e, m);
      top := if Leq(e, m) then m else e;
    }
  }

  /** `std::priority_queue::top` */
  function Top(q: multiset<Entry>): (e: Entry)
    requires q != multiset{}
    ensures IsTop(q, e)
  {
    assert exists e :: IsTop(q, e) by { var _ := TopExists(q); }
    var e :| IsTop(q, e);
    e
  }

  // ---- The specification: a finite map of live activations ----

  type Live = map<nat, Activation>

  predicate InFocus(a: Activation, focus: string) {
    match a.rule.agendaGroup
    case Some(g) => g == focus
    case None => focus == "MAIN"
  }

  function Candidates(live: Live, focus: string): set<nat> {
    set h | h in live && InFocus(live[h], focus)
  }

  function Key(a: Activation): Entry { Entry(a.rule.salience, a.hash) }

  /** `h` names the live activation in focus with the greatest (salience, hash). */
  predicate Best(live: Live, focus: string, h: nat) {
    && h in Candidates(live, focus)
    && forall h' :: h' in Candidates(live, focus) ==> Leq(Key(live[h']), Key(live[h]))
  }

  lemma BestUnique(live: Live, focus: string, h: nat, h': nat)
    requires Filed(live) && Best(live, focus, h) && Best(live, focus, h')
    ensures h == h'
  {
  }

  /** Every activation is filed under its own hash. */
  predicate Filed(live: Live) {
    forall h :: h in live ==> live[h].hash == h
  }

  /** Removing the best activation `n` times: what is taken out, in order, and what is left. */
  ghost predicate Drains(live: Live, focus: string, n: nat, taken: seq<Activation>, left: Live)
    decreases n
  {
    if n == 0 || Candidates(live, focus) == {} then taken == [] && left == live
    else
      && taken != [] && Best(live, focus, taken[0].hash) && taken[0] == live[taken[0].hash]
      && Drains(live - {taken[0].hash}, focus, n - 1, taken[1..], left)
  }

  /** The result of draining is determined by the map and the focus alone. */
  lemma {:induction false} DrainsUnique(live: Live, focus: string, n: nat, t1: seq<Activation>, l1: Live, t2: seq<Activation>, l2: Live)
    requires Filed(live) && Drains(live, focus, n, t1, l1) && Drains(live, focus, n, t2, l2)
    ensures t1 == t2 && l1 == l2
    decreases n
  {
    if n > 0 && Candidates(live, focus) != {} {
      BestUnique(live, focus, t1[0].hash, t2[0].hash);
      DrainsUnique(live - {t1[0].hash}, focus, n - 1, t1[1..], l1, t2[1..], l2);
      assert t1 == [t1[0]] + t1[1..] && t2 == [t2[0]] + t2[1..];
    }
  }

  /** Draining `n` and then one more. */
  lemma {:induction false} DrainsMore(live: Live, focus: string, n: nat, taken: seq<Activation>, left: Live, a: Activation)
    requires Drains(live, focus, n, taken, left) && Candidates(left, focus) != {}
    requires Best(left, focus, a.hash) && a == left[a.hash]
    ensures Drains(live, focus, n + 1, taken + [a], left - {a.hash})
    decreases n
  {
    if n == 0 || Candidates(live, focus) == {} {
      assert (taken + [a])[1..] == [];
      assert Drains(live - {a.hash}, focus, n, [], left - {a.hash}) by {
        assert n == 0;
      }
    } else {
      assert (taken + [a])[1..] == taken[1..] + [a];
      DrainsMore(live - {taken[0].hash}, focus, n - 1, taken[1..], left, a);
    }
  }

  lemma {:induction false} DrainsDone(live: Live, focus: string, n: nat, m: nat, taken: seq<Activation>, left: Live)
    requires Drains(live, focus, n, taken, left) && Candidates(left, focus) == {} && n <= m
    ensures Drains(live, focus, m, taken, left)
    decreases n
  {
    if n > 0 && Candidates(live, focus) != {} {
      DrainsDone(live - {taken[0].hash}, focus, n - 1, m - 1, taken[1..], left);
    }
  }

  ghost function Hashes(as_: seq<Activation>): set<nat> { set i | 0 <= i < |as_| :: as_[i].hash }

  /** Exactly the taken activations are gone, and each was taken once. */
  lemma {:induction false} DrainsRemoves(live: Live, focus: string, n: nat, taken: seq<Activation>, left: Live)
    requires Filed(live) && Drains(live, focus, n, taken, left)
    ensures left == live - Hashes(taken) && FromMap(live, taken)
    decreases n
  {
    hide Leq, Key, InFocus;
    if n == 0 || Candidates(live, focus) == {} {
      assert left == live - Hashes(taken);
    } else {
      var h, rest := taken[0].hash, taken[1..];
      DrainsRemoves(live - {h}, focus, n - 1, rest, left);
      assert taken == [taken[0]] + rest;
      assert Hashes(taken) == {h} + Hashes(rest) by {
        assert forall i :: 0 <= i < |rest| ==> taken[i + 1] == rest[i];
        assert forall i :: 1 <= i < |taken| ==> taken[i] == rest[i - 1];
      }
      assert live - {h} - Hashes(rest) == live - Hashes(taken);
    }
  }

  // ---- What may fire, and in which order ----

  /** An activation may fire if its rule's agenda group is the last one focused.  With nothing
      focused that is "MAIN", and rules without a group belong to "MAIN". */
  predicate Eligible(a: Activation, stack: seq<string>) {
    if stack == [] then a.rule.agendaGroup == None || a.rule.agendaGroup == Some("MAIN")
    else a.rule.agendaGroup == Some(stack[|stack| - 1]) || (a.rule.agendaGroup == None && stack[|stack| - 1] == "MAIN")
  }

  /** The greater salience fires first, and between equal ones the greater hash. */
  predicate FiresAfter(a: Activation, b: Activation) {
    a.rule.salience < b.rule.salience || (a.rule.salience == b.rule.salience && a.hash < b.hash)
  }

  /** Up to `n` eligible activations leave the map, each before all that stay or leave later. */
  ghost predicate TakenInOrder(live: Live, stack: seq<string>, n: nat, taken: seq<Activation>, left: Live) {
    && |taken| <= n && left == live - Hashes(taken)
    && (forall i :: 0 <= i < |taken| ==> taken[i].hash in live && taken[i] == live[taken[i].hash] && Eligible(taken[i], stack))
    && (forall i, j :: 0 <= i < j < |taken| ==> FiresAfter(taken[j], taken[i]))
    && (forall i, h :: 0 <= i < |taken| && h in left && Eligible(left[h], stack) ==> FiresAfter(left[h], taken[i]))
    && (|taken| < n ==> forall h :: h in left ==> !Eligible(left[h], stack))
  }

  /** A focus name that stands for a focus stack. */
  ghost predicate Focuses(focus: string, stack: seq<string>) {
    forall a: Activation :: InFocus(a, focus) <==> Eligible(a, stack)
  }

  lemma BestIsFirst(live: Live, focus: string, stack: seq<string>, h: nat)
    requires Filed(live) && Focuses(focus, stack) && Best(live, focus, h)
    ensures Eligible(live[h], stack)
    ensures forall h' :: h' in live && h' != h && Eligible(live[h'], stack) ==> FiresAfter(live[h'], live[h])
  {
    hide Eligible, InFocus;
    forall h' | h' in live && h' != h && Eligible(live[h'], stack) ensures FiresAfter(live[h'], live[h]) {
      assert h' in Candidates(live, focus);
    }
  }

  /** A draining takes the activations in firing order. */
  lemma {:induction false} DrainsInOrder(live: Live, focus: string, stack: seq<string>, n: nat, taken: seq<Activation>, left: Live)
    requires Filed(live) && Focuses(focus, stack) && Drains(live, focus, n, taken, left)
    ensures TakenInOrder(live, stack, n, taken, left)
    decreases n
  {
    hide Eligible, InFocus, FiresAfter, Focuses;
    DrainsRemoves(live, focus, n, taken, left);
    if n == 0 || Candidates(live, focus) == {} {
      NoneEligible(live, focus, stack);
    } else {
      var a, rest := taken[0], live - {taken[0].hash};
      BestIsFirst(live, focus, stack, a.hash);
      DrainsInOrder(rest, focus, stack, n - 1, taken[1..], left);
      assert forall i :: 1 <= i < |taken| ==> taken[i] == taken[1..][i - 1];
    }
  }

  lemma NoneEligible(live: Live, focus: string, stack: seq<string>)
    requires Focuses(focus, stack)
    ensures Candidates(live, focus) == {} <==> forall h :: h in live ==> !Eligible(live[h], stack)
  {
    hide Eligible, InFocus;
    forall h | h in live ensures h in Candidates(live, focus) <==> Eligible(live[h], stack) { }
  }

  // ---- The activation-group index ----

  type GroupIndex = map<string, set<nat>>

  predicate NoEmptyGroup(groups: GroupIndex) { forall g :: g in groups ==> groups[g] != {} }

  ghost function Members(groups: GroupIndex): set<(string, nat)> {
    set g, h | g in groups && h in groups[g] :: (g, h)
  }

  lemma MembersDetermine(a: GroupIndex, b: GroupIndex)
    requires NoEmptyGroup(a) && NoEmptyGroup(b) && Members(a) == Members(b)
    ensures a == b
  {
    forall g | g in a ensures g in b && a[g] <= b[g] {
      var h :| h in a[g];
      assert (g, h) in Members(b);
      forall h | h in a[g] ensures h in b[g] { assert (g, h) in Members(b); }
    }
    forall g | g in b ensures g in a && b[g] <= a[g] {
      var h :| h in b[g];
      assert (g, h) in Members(a);
      forall h | h in b[g] ensures h in a[g] { assert (g, h) in Members(a); }
    }
    assert a.Keys == b.Keys;
    assert forall g :: g in a ==> a[g] == b[g];
  }

  ghost function Membership(a: Activation): set<(string, nat)> {
    match a.rule.activationGroup
    case None => {}
    case Some(g) => {(g, a.hash)}
  }

  ghost function Memberships(as_: seq<Activation>): set<(string, nat)> {
    set i, p | 0 <= i < |as_| && p in Membership(as_[i]) :: p
  }

  function Erase(groups: GroupIndex, g: string, h: nat): (r: GroupIndex) {
    if g !in groups then groups
    else if groups[g] - {h} == {} then groups - {g}
    else groups[g := groups[g] - {h}]
  }

  lemma EraseMembers(groups: GroupIndex, g: string, h: nat)
    requires NoEmptyGroup(groups)
    ensures NoEmptyGroup(Erase(groups, g, h)) && Members(Erase(groups, g, h)) == Members(groups) - {(g, h)}
  {
    var r := Erase(groups, g, h);
    forall p | p in Members(groups) - {(g, h)} ensures p in Members(r) {
      assert p.0 in groups && p.1 in groups[p.0];
      if p.0 == g { assert p.1 in groups[g] - {h}; }
    }
  }

  function Unindexed(groups: GroupIndex, a: Activation): GroupIndex {
    match a.rule.activationGroup
    case None => groups
    case Some(g) => Erase(groups, g, a.hash)
  }

  function Indexed(groups: GroupIndex, a: Activation): GroupIndex {
    match a.rule.activationGroup
    case None => groups
    case Some(g) => groups[g := (if g in groups then groups[g] else {}) + {a.hash}]
  }

  lemma IndexMembers(groups: GroupIndex, a: Activation)
    requires NoEmptyGroup(groups)
    ensures NoEmptyGroup(Indexed(groups, a)) && Members(Indexed(groups, a)) == Members(groups) + Membership(a)
    ensures NoEmptyGroup(Unindexed(groups, a)) && Members(Unindexed(groups, a)) == Members(groups) - Membership(a)
  {
    match a.rule.activationGroup
    case None =>
    case Some(g) =>
      EraseMembers(groups, g, a.hash);
      var r := Indexed(groups, a);
      forall p | p in Members(groups) + {(g, a.hash)} ensures p in Members(r) {
        assert p.0 in r && p.1 in r[p.0];
      }
  }

  lemma UnindexedListed(groups: GroupIndex, a: Activation)
    ensures forall g, h :: Listed(Unindexed(groups, a), g, h) <==> Listed(groups, g, h) && !(a.rule.activationGroup == Some(g) && h == a.hash)
  {
    forall g, h | Listed(groups, g, h) && !(a.rule.activationGroup == Some(g) && h == a.hash) ensures Listed(Unindexed(groups, a), g, h) {
      if a.rule.activationGroup == Some(g) { assert h in groups[g] - {a.hash}; }
    }
  }

  /** Every live grouped activation is listed in the index under its group. */
  ghost predicate Covers(live: Live, groups: GroupIndex) {
    forall h :: h in live ==> Membership(live[h]) <= Members(groups)
  }

  predicate Listed(groups: GroupIndex, g: string, h: nat) { g in groups && h in groups[g] }

  predicate InGroup(a: Activation, g: string) { a.rule.activationGroup == Some(g) }

  // ---- The queue invariant, on values ----

  /** The assumption on hashes: a hash always names the same rule. */
  type Naming = nat -> Rule

  ghost predicate Named(ruleOf: Naming, a: Activation) { a.rule == ruleOf(a.hash) }

  ghost predicate LiveNamed(ruleOf: Naming, live: Live) {
    Filed(live) && forall h :: h in live ==> Named(ruleOf, live[h])
  }

  /** Stale and duplicate entries are allowed, but an entry's salience is its rule's. */
  ghost predicate QueueNamed(ruleOf: Naming, q: multiset<Entry>) {
    forall e :: e in q ==> e.salience == ruleOf(e.hash).salience
  }

  /** No live activation is lost: each has at least one entry. */
  ghost predicate Queued(live: Live, q: multiset<Entry>) {
    forall h :: h in live ==> Key(live[h]) in q
  }

  ghost predicate NoStale(live: Live, q: multiset<Entry>) {
    forall e :: e in q <==> e.hash in live && e == Key(live[e.hash])
  }

  /** No entry is queued twice. */
  ghost predicate OncePer(q: multiset<Entry>) { forall e :: q[e] <= 1 }

  lemma NoneTwice()
    ensures OncePer(multiset{})
  {
  }

  lemma OnceMore(q: multiset<Entry>, e: Entry)
    requires OncePer(q) && e !in q
    ensures OncePer(q + multiset{e})
  {
  }

  ghost predicate IndexNamed(ruleOf: Naming, groups: GroupIndex) {
    NoEmptyGroup(groups) && forall p :: p in Members(groups) ==> ruleOf(p.1).activationGroup == Some(p.0)
  }

  /** Entries put aside by a pop: live, but out of focus. */
  ghost predicate Deferred(live: Live, focus: string, d: seq<Entry>) {
    forall i :: 0 <= i < |d| ==> d[i].hash in live && !InFocus(live[d[i].hash], focus)
  }

  /** The state of the pop loops: queue and deferred entries together still cover the map. */
  ghost predicate Scanning(ruleOf: Naming, live: Live, focus: string, q: multiset<Entry>, d: seq<Entry>) {
    && LiveNamed(ruleOf, live) && QueueNamed(ruleOf, q + multiset(d))
    && Queued(live, q + multiset(d)) && Deferred(live, focus, d)
  }

  lemma ScanStart(ruleOf: Naming, live: Live, focus: string, q: multiset<Entry>)
    requires LiveNamed(ruleOf, live) && QueueNamed(ruleOf, q) && Queued(live, q)
    ensures Scanning(ruleOf, live, focus, q, [])
  {
    assert q + multiset([]) == q;
  }

  lemma ScanStale(ruleOf: Naming, live: Live, focus: string, q: multiset<Entry>, d: seq<Entry>, e: Entry)
    requires Scanning(ruleOf, live, focus, q, d) && e in q && e.hash !in live
    ensures Scanning(ruleOf, live, focus, q - multiset{e}, d)
  {
  }

  lemma ScanDefer(ruleOf: Naming, live: Live, focus: string, q: multiset<Entry>, d: seq<Entry>, e: Entry)
    requires Scanning(ruleOf, live, focus, q, d) && e in q && e.hash in live && !InFocus(live[e.hash], focus)
    ensures Scanning(ruleOf, live, focus, q - multiset{e}, d + [e])
  {
    assert q - multiset{e} + multiset(d + [e]) == q + multiset(d);
  }

  /** The greatest entry, if live and in focus, is the best candidate; taking it out is sound. */
  lemma ScanTake(ruleOf: Naming, live: Live, focus: string, q: multiset<Entry>, d: seq<Entry>, e: Entry)
    requires Scanning(ruleOf, live, focus, q, d) && IsTop(q, e)
    requires e.hash in live && InFocus(live[e.hash], focus)
    ensures Best(live, focus, e.hash) && Candidates(live, focus) != {}
    ensures live[e.hash].hash == e.hash && e.salience == live[e.hash].rule.salience
    ensures Scanning(ruleOf, live - {e.hash}, focus, q - multiset{e}, d)
  {
    assert e in q + multiset(d);
    forall h | h in Candidates(live, focus) ensures Leq(Key(live[h]), Key(live[e.hash])) {
      NotDeferred(live, focus, d, h);
      assert Key(live[h]) in q + multiset(d);
    }
    forall h | h in live - {e.hash} ensures Key(live[h]) in q - multiset{e} + multiset(d) {
      assert Key(live[h]) in q + multiset(d);
    }
    forall i | 0 <= i < |d| ensures d[i].hash != e.hash { }
  }

  lemma NotDeferred(live: Live, focus: string, d: seq<Entry>, h: nat)
    requires Filed(live) && Deferred(live, focus, d) && h in Candidates(live, focus)
    ensures Key(live[h]) !in multiset(d)
  {
    forall i | 0 <= i < |d| ensures d[i] != Key(live[h]) { }
  }

  lemma ScanEmpty(ruleOf: Naming, live: Live, focus: string, d: seq<Entry>)
    requires Scanning(ruleOf, live, focus, multiset{}, d)
    ensures Candidates(live, focus) == {}
  {
    forall h | h in live ensures !InFocus(live[h], focus) {
      assert Key(live[h]) in multiset{} + multiset(d);
      assert Key(live[h]) in d;
    }
  }

  // ---- Batches ----

  function Activations(batch: seq<Popped>): (r: seq<Activation>)
    ensures |r| == |batch| && forall i :: 0 <= i < |r| ==> r[i] == batch[i].activation
  {
    seq(|batch|, i requires 0 <= i < |batch| => batch[i].activation)
  }

  /** The map after filing activations again, one after the other. */
  function Restored(live: Live, as_: seq<Activation>): Live {
    if as_ == [] then live
    else
      var a := as_[|as_| - 1];
      Restored(live, as_[..|as_| - 1])[a.hash := a]
  }

  lemma MembershipsMore(as_: seq<Activation>, a: Activation)
    ensures Memberships(as_ + [a]) == Memberships(as_) + Membership(a)
  {
    var all := as_ + [a];
    assert all[|as_|] == a && forall i :: 0 <= i < |as_| ==> all[i] == as_[i];
    forall p | p in Memberships(as_) + Membership(a) ensures p in Memberships(all) {
      if p in Memberships(as_) {
        var i :| 0 <= i < |as_| && p in Membership(as_[i]);
        assert p in Membership(all[i]);
      } else {
        assert p in Membership(all[|as_|]);
      }
    }
    forall p | p in Memberships(all) ensures p in Memberships(as_) + Membership(a) {
      var i :| 0 <= i < |all| && p in Membership(all[i]);
      if i < |as_| { assert p in Membership(as_[i]); }
    }
  }

  /** Distinct activations of one map, as a batch pop returns them. */
  predicate FromMap(live: Live, taken: seq<Activation>) {
    && (forall i :: 0 <= i < |taken| ==> taken[i].hash in live && live[taken[i].hash] == taken[i])
    && (forall i, j :: 0 <= i < j < |taken| ==> taken[i].hash != taken[j].hash)
  }

  lemma {:induction false} RestoredAt(live: Live, as_: seq<Activation>, h: nat)
    requires forall i, j :: 0 <= i < j < |as_| ==> as_[i].hash != as_[j].hash
    ensures h in Restored(live, as_) <==> h in live || h in Hashes(as_)
    ensures forall i :: 0 <= i < |as_| && as_[i].hash == h ==> h in Restored(live, as_) && Restored(live, as_)[h] == as_[i]
    ensures h in live && h !in Hashes(as_) ==> h in Restored(live, as_) && Restored(live, as_)[h] == live[h]
  {
    if as_ != [] {
      var m := |as_| - 1;
      RestoredAt(live, as_[..m], h);
      assert Hashes(as_) == Hashes(as_[..m]) + {as_[m].hash};
      forall i | 0 <= i < |as_| && as_[i].hash == h ensures h in Restored(live, as_) && Restored(live, as_)[h] == as_[i] {
        if i < m { assert as_[..m][i] == as_[i]; }
      }
    }
  }

  /** Putting back the tail of a batch leaves exactly its head removed. */
  lemma RestoreUndoes(live: Live, taken: seq<Activation>, k: nat)
    requires FromMap(live, taken) && k <= |taken|
    ensures Restored(live - Hashes(taken), taken[k..]) == live - Hashes(taken[..k])
  {
    var l, r := Restored(live - Hashes(taken), taken[k..]), live - Hashes(taken[..k]);
    assert Hashes(taken) == Hashes(taken[..k]) + Hashes(taken[k..]) by {
      assert forall i :: 0 <= i < k ==> taken[..k][i] == taken[i];
      assert forall i :: k <= i < |taken| ==> taken[k..][i - k] == taken[i];
    }
    forall h ensures h in l <==> h in r {
      RestoredAt(live - Hashes(taken), taken[k..], h);
      Apart(live, taken, k, h);
    }
    forall h | h in l ensures l[h] == r[h] {
      RestoredAt(live - Hashes(taken), taken[k..], h);
      Apart(live, taken, k, h);
    }
  }

  lemma Apart(live: Live, taken: seq<Activation>, k: nat, h: nat)
    requires FromMap(live, taken) && k <= |taken|
    ensures h in Hashes(taken[k..]) ==> h in live && h !in Hashes(taken[..k])
    ensures h in Hashes(taken[k..]) ==> exists i :: 0 <= i < |taken[k..]| && taken[k..][i].hash == h && taken[k..][i] == live[h]
  {
    if h in Hashes(taken[k..]) {
      var i :| 0 <= i < |taken[k..]| && taken[k..][i].hash == h;
      assert taken[k..][i] == taken[k + i];
      assert forall j :: 0 <= j < k ==> taken[..k][j] == taken[j];
    }
  }

  lemma MembershipsApart(live: Live, taken: seq<Activation>, k: nat)
    requires FromMap(live, taken) && k <= |taken|
    ensures Memberships(taken) == Memberships(taken[..k]) + Memberships(taken[k..])
    ensures Memberships(taken[..k]) !! Memberships(taken[k..])
  {
    var x, y := taken[..k], taken[k..];
    forall p | p in Memberships(taken) ensures p in Memberships(x) + Memberships(y) {
      var i :| 0 <= i < |taken| && p in Membership(taken[i]);
      if i < k { assert p in Membership(x[i]); } else { assert p in Membership(y[i - k]); }
    }
    forall p | p in Memberships(x) ensures p in Memberships(taken) && p !in Memberships(y) {
      var i :| 0 <= i < |x| && p in Membership(x[i]);
      assert p in Membership(taken[i]);
      forall j | 0 <= j < |y| ensures p !in Membership(y[j]) { assert y[j] == taken[k + j]; }
    }
    forall p | p in Memberships(y) ensures p in Memberships(taken) {
      var i :| 0 <= i < |y| && p in Membership(y[i]);
      assert p in Membership(taken[k + i]);
    }
  }

  lemma CoveredBatch(live: Live, groups: GroupIndex, taken: seq<Activation>)
    requires Covers(live, groups) && FromMap(live, taken)
    ensures Memberships(taken) <= Members(groups)
  {
    forall p | p in Memberships(taken) ensures p in Members(groups) {
      var i :| 0 <= i < |taken| && p in Membership(taken[i]);
      assert Membership(live[taken[i].hash]) <= Members(groups);
    }
  }

  /** What one look at the queue finds. */
  datatype Look = Stale | Defer(entry: Entry) | Take(entry: Entry, activation: Activation)

  class Agenda {
    ghost const ruleOf: Naming
    var focusStack: seq<string>
    var agendaMap: Live
    var agendaQueue: multiset<Entry>
    var groups: GroupIndex

    constructor (ghost ruleOf: Naming)
      ensures Valid() && this.ruleOf == ruleOf
      ensures agendaMap == map[] && groups == map[] && focusStack == []
    {
      this.ruleOf := ruleOf;
      focusStack, agendaMap, agendaQueue, groups := [], map[], multiset{}, map[];
    }

    ghost predicate Valid()
      reads this
    {
      && LiveNamed(ruleOf, agendaMap) && QueueNamed(ruleOf, agendaQueue)
      && Queued(agendaMap, agendaQueue) && IndexNamed(ruleOf, groups)
    }

    function Focus(): string
      reads this`focusStack
    {
      if focusStack == [] then "MAIN" else focusStack[|focusStack| - 1]
    }

    lemma LiveFiled()
      requires Valid()
      ensures Filed(agendaMap)
    {
    }

    lemma FocusIsFocused()
      ensures Focuses(Focus(), focusStack)
    {
    }

    method SetFocus(g: string)
      requires Valid()
      modifies this`focusStack
      ensures Valid() && focusStack == old(focusStack) + [g] && Focus() == g
    {
      focusStack := focusStack + [g];
    }

    method PopFocus() returns (top: string)
      requires Valid()
      modifies this`focusStack
      ensures Valid()
      ensures if old(focusStack) == [] then focusStack == [] && top == ""
              else old(focusStack) == focusStack + [top]
    {
      if focusStack == [] { return ""; }
      top := focusStack[|focusStack| - 1];
      focusStack := focusStack[..|focusStack| - 1];
    }

    /** `add` */
    method Add(a: Activation)
      requires Valid() && Named(ruleOf, a)
      modifies this`agendaMap, this`agendaQueue, this`groups
      ensures Valid() && agendaMap == old(agendaMap)[a.hash := a]
      ensures Members(groups) == old(Members(groups)) + Membership(a)
      ensures forall g, h :: Listed(groups, g, h) <==> old(Listed(groups, g, h)) || (a.rule.activationGroup == Some(g) && h == a.hash)
      ensures old(Covers(agendaMap, groups)) ==> Covers(agendaMap, groups)
    {
      agendaMap := agendaMap[a.hash := a];
      agendaQueue := agendaQueue + multiset{Key(a)};
      IndexMembers(groups, a);
      groups := Indexed(groups, a);
    }

    /** `remove` */
    method Remove(hash: nat) returns (found: bool)
      requires Valid()
      modifies this`agendaMap, this`groups
      ensures Valid() && found == (hash in old(agendaMap)) && agendaMap == old(agendaMap) - {hash}
      ensures Members(groups) == old(Members(groups)) - (if found then Membership(old(agendaMap)[hash]) else {})
      ensures forall g, h :: Listed(groups, g, h) <==>
        old(Listed(groups, g, h)) && !(h == hash && found && old(agendaMap)[hash].rule.activationGroup == Some(g))
      ensures old(Covers(agendaMap, groups)) ==> Covers(agendaMap, groups)
    {
      if hash !in agendaMap {
        return false;
      }
      IndexMembers(groups, agendaMap[hash]);
      UnindexedListed(groups, agendaMap[hash]);
      groups := Unindexed(groups, agendaMap[hash]);
      agendaMap := agendaMap - {hash};
      return true;
    }

    /** `compact_if_needed`: rebuild the queue from the map when it is mostly stale. */
    method CompactIfNeeded(staleSkipped: nat)
      requires Valid()
      modifies this`agendaQueue
      ensures Valid()
      ensures if staleSkipped > 64 && |old(agendaQueue)| > 2 * |agendaMap| then NoStale(agendaMap, agendaQueue) && OncePer(agendaQueue)
              else agendaQueue == old(agendaQueue)
    {
      if staleSkipped <= 64 || |agendaQueue| <= |agendaMap| * 2 {
        return;
      }
      hide OncePer, Queued, QueueNamed;
      var compacted: multiset<Entry> := multiset{};
      NoneTwice();
      var todo := agendaMap.Keys;
      while todo != {}
        invariant todo <= agendaMap.Keys
        invariant forall h :: h in agendaMap && h !in todo ==> Key(agendaMap[h]) in compacted
        invariant forall e :: e in compacted ==> e.hash in agendaMap && e.hash !in todo && e == Key(agendaMap[e.hash])
        invariant OncePer(compacted)
        decreases todo
      {
        var h :| h in todo;
        OnceMore(compacted, Key(agendaMap[h]));
        compacted := compacted + multiset{Key(agendaMap[h])};
        todo := todo - {h};
      }
      agendaQueue := compacted;
    }

    /** `pop_next`: the live activation in focus with the greatest (salience, hash), or
        none exactly when no live activation is in focus. */
    method PopNext() returns (r: Option<Activation>)
      requires Valid()
      modifies this`agendaMap, this`agendaQueue
      ensures Valid()
      ensures r.None? <==> Candidates(old(agendaMap), Focus()) == {}
      ensures r.None? ==> agendaMap == old(agendaMap)
      ensures r.Some? ==>
        && Best(old(agendaMap), Focus(), r.value.hash) && r.value == old(agendaMap)[r.value.hash]
        && agendaMap == old(agendaMap) - {r.value.hash}
      ensures old(Covers(agendaMap, groups)) ==> Covers(agendaMap, groups)
      ensures focusStack == [] ==>
        (r.None? <==> forall h :: h in old(agendaMap) ==> old(agendaMap)[h].rule.agendaGroup.Some? && old(agendaMap)[h].rule.agendaGroup.value != "MAIN")
      ensures focusStack != [] ==> var g := focusStack[|focusStack| - 1];
        (r.None? <==> forall h :: h in old(agendaMap) ==>
           old(agendaMap)[h].rule.agendaGroup != Some(g) && (g == "MAIN" ==> old(agendaMap)[h].rule.agendaGroup != None))
      ensures TakenInOrder(old(agendaMap), focusStack, 1, if r.Some? then [r.value] else [], agendaMap)
    {
      hide Scanning, Candidates, LiveNamed, Queued, QueueNamed, IndexNamed, NoStale, Best, InFocus, Covers, TakenInOrder;
      FocusIsFocused();
      var stale: nat := 0;
      var deferred: seq<Entry> := [];
      var focus := Focus();
      ScanStart(ruleOf, agendaMap, focus, agendaQueue);
      while agendaQueue != multiset{}
        invariant agendaMap == old(agendaMap)
        invariant Scanning(ruleOf, agendaMap, focus, agendaQueue, deferred)
        decreases |agendaQueue|
      {
        var look := TakeTop(focus, deferred);
        match look
        case Stale => stale := stale + 1;
        case Defer(e) => deferred := deferred + [e];
        case Take(e, a) =>
          ScanEnd(ruleOf, agendaMap, focus, agendaQueue, deferred);
          agendaQueue := agendaQueue + multiset(deferred);
          CompactIfNeeded(stale);
          CoversShrink(old(agendaMap), groups, a.hash);
          OneTaken(ruleOf, old(agendaMap), focus, focusStack, a, agendaMap);
          return Some(a);
      }
      NoneTaken(agendaMap, focus, focusStack);
      ScanEmpty(ruleOf, agendaMap, focus, deferred);
      ScanEnd(ruleOf, agendaMap, focus, agendaQueue, deferred);
      agendaQueue := agendaQueue + multiset(deferred);
      CompactIfNeeded(stale);
      r := None;
    }

    /** One turn of either pop loop: take the greatest entry off the queue and see whether it
        is stale, out of focus, or the activation to fire. */
    method TakeTop(focus: string, ghost deferred: seq<Entry>) returns (look: Look)
      requires agendaQueue != multiset{} && Scanning(ruleOf, agendaMap, focus, agendaQueue, deferred)
      modifies this`agendaMap, this`agendaQueue
      ensures |agendaQueue| < |old(agendaQueue)|
      ensures !look.Take? ==> agendaMap == old(agendaMap)
      ensures look.Take? ==>
        && Candidates(old(agendaMap), focus) != {} && Best(old(agendaMap), focus, look.activation.hash)
        && look.activation == old(agendaMap)[look.activation.hash] && look.entry == Key(look.activation)
        && agendaMap == old(agendaMap) - {look.activation.hash}
      ensures Scanning(ruleOf, agendaMap, focus, agendaQueue, if look.Defer? then deferred + [look.entry] else deferred)
    {
      hide Scanning, Candidates, Best, InFocus;
      var e := Top(agendaQueue);
      ghost var q := agendaQueue;
      agendaQueue := agendaQueue - multiset{e};
      if e.hash !in agendaMap {
        ScanStale(ruleOf, agendaMap, focus, q, deferred, e);
        look := Stale;
      } else if InFocus(agendaMap[e.hash], focus) {
        ScanTake(ruleOf, agendaMap, focus, q, deferred, e);
        look := Take(e, agendaMap[e.hash]);
        agendaMap := agendaMap - {e.hash};
      } else {
        ScanDefer(ruleOf, agendaMap, focus, q, deferred, e);
        look := Defer(e);
      }
    }

    /** `pop_next` called `n` times. */
    method PopTimes(n: nat) returns (taken: seq<Activation>)
      requires Valid()
      modifies this`agendaMap, this`agendaQueue
      ensures Valid() && Drains(old(agendaMap), Focus(), n, taken, agendaMap)
      ensures TakenInOrder(old(agendaMap), focusStack, n, taken, agendaMap)
    {
      hide *;
      LiveFiled();
      FocusIsFocused();
      BatchStart(agendaMap, Focus(), groups);
      taken := [];
      ghost var focus := Focus();
      for k := 0 to n
        invariant Valid() && Drains(old(agendaMap), focus, k, taken, agendaMap)
      {
        ghost var before := agendaMap;
        var r := PopNext();
        match r
        case None =>
          DrainsDone(old(agendaMap), focus, k, k + 1, taken, agendaMap);
        case Some(a) =>
          DrainsMore(old(agendaMap), focus, k, taken, before, a);
          taken := taken + [a];
      }
      DrainsInOrder(old(agendaMap), focus, focusStack, n, taken, agendaMap);
    }

    /** `pop_next_batch_activations`: the same activations, in the same order, and the same
        map left over, as that many single pops; and their group memberships are dropped. */
    method PopBatch(maxItems: nat) returns (out: seq<Popped>)
      requires Valid()
      modifies this`agendaMap, this`agendaQueue, this`groups
      ensures Valid() && Drains(old(agendaMap), Focus(), maxItems, Activations(out), agendaMap)
      ensures TakenInOrder(old(agendaMap), focusStack, maxItems, Activations(out), agendaMap)
      ensures forall i :: 0 <= i < |out| ==> out[i].salience == out[i].activation.rule.salience
      ensures Members(groups) == old(Members(groups)) - Memberships(Activations(out))
      ensures old(Covers(agendaMap, groups)) ==> Covers(agendaMap, groups)
    {
      hide Scanning, Candidates, LiveNamed, Queued, QueueNamed, IndexNamed, NoStale, Best, InFocus, Drains, Members, Memberships, BatchState, Covers, Filed, FromMap, TakenInOrder, Focuses;
      LiveFiled();
      FocusIsFocused();
      out := [];
      var focus := Focus();
      var stale: nat := 0;
      var deferred: seq<Entry> := [];
      ScanStart(ruleOf, agendaMap, focus, agendaQueue);
      ScanEnd(ruleOf, agendaMap, focus, agendaQueue, []);
      BatchBegin(ruleOf, agendaMap, groups, focus);
      while agendaQueue != multiset{} && |out| < maxItems
        invariant |out| <= maxItems
        invariant Scanning(ruleOf, agendaMap, focus, agendaQueue, deferred)
        invariant BatchState(ruleOf, old(agendaMap), old(groups), focus, out, agendaMap, groups)
        decreases |agendaQueue|
      {
        ghost var live := agendaMap;
        var look := TakeTop(focus, deferred);
        match look
        case Stale => stale := stale + 1;
        case Defer(e) => deferred := deferred + [e];
        case Take(e, a) =>
          BatchTake(ruleOf, old(agendaMap), old(groups), focus, out, live, groups, a);
          groups := Unindexed(groups, a);
          out := out + [Popped(e.salience, a)];
      }
      if |out| < maxItems {
        ScanEmpty(ruleOf, agendaMap, focus, deferred);
      }
      BatchEnd(ruleOf, old(agendaMap), old(groups), focus, out, agendaMap, groups, maxItems);
      DrainsInOrder(old(agendaMap), focus, focusStack, maxItems, Activations(out), agendaMap);
      CoversBatch(old(agendaMap), old(groups), focus, maxItems, Activations(out), agendaMap, groups);
      ScanEnd(ruleOf, agendaMap, focus, agendaQueue, deferred);
      agendaQueue := agendaQueue + multiset(deferred);
      CompactIfNeeded(stale);
    }

    /** `requeue_batch_activations` */
    method Requeue(batch: seq<Popped>, start: nat)
      requires Valid()
      requires forall i :: 0 <= i < |batch| ==> Named(ruleOf, batch[i].activation) && batch[i].salience == batch[i].activation.rule.salience
      modifies this`agendaMap, this`agendaQueue, this`groups
      ensures Valid() && agendaMap == Restored(old(agendaMap), From(Activations(batch), start))
      ensures Members(groups) == old(Members(groups)) + Memberships(From(Activations(batch), start))
      ensures old(Covers(agendaMap, groups)) ==> Covers(agendaMap, groups)
    {
      hide Valid, Members, Membership, Memberships, Named, Covers;
      ghost var as_ := Activations(batch);
      NoMemberships();
      if start >= |batch| { return; }
      assert as_[start..start] == [];
      for i := start to |batch|
        invariant Valid() && agendaMap == Restored(old(agendaMap), as_[start..i])
        invariant Members(groups) == old(Members(groups)) + Memberships(as_[start..i])
        invariant old(Covers(agendaMap, groups)) ==> Covers(agendaMap, groups)
      {
        assert as_[start..i + 1] == as_[start..i] + [batch[i].activation];
        MembershipsMore(as_[start..i], batch[i].activation);
        Add(batch[i].activation);
      }
      assert as_[start..|batch|] == as_[start..];
    }

    /** `cancel_activation_group`: every listed activation of the group but one is removed.
        If the index covers the map, the group is left without live members other than the
        exception, nothing else is touched, and the index still covers the map unless the
        exception was itself live in the group. */
    method CancelActivationGroup(g: string, except: nat)
      requires Valid()
      modifies this`agendaMap, this`groups
      ensures Valid()
      ensures agendaMap == old(agendaMap) - (if g in old(groups) then old(groups)[g] - {except} else {})
      ensures old(Covers(agendaMap, groups)) ==>
        forall h :: h in old(agendaMap) ==> (h in agendaMap <==> h == except || !InGroup(old(agendaMap)[h], g))
      ensures forall g', h :: Listed(groups, g', h) <==> old(Listed(groups, g', h)) && !(g' == g && (h == except || h in old(agendaMap)))
      ensures old(Covers(agendaMap, groups)) && g in old(groups) ==>
        (Covers(agendaMap, groups) <==> !(except in old(agendaMap) && InGroup(old(agendaMap)[except], g)))
    {
      hide Members, Covers, Queued, QueueNamed, IndexNamed;
      if g !in groups {
        NotListed(agendaMap, groups, g);
        return;
      }
      var cancelled := groups[g] - {except};
      var todo := cancelled;
      ghost var gone := Pairs(g, cancelled);
      while todo != {}
        invariant todo <= cancelled && Valid()
        invariant agendaMap == old(agendaMap) - (cancelled - todo)
        invariant Members(groups) <= old(Members(groups)) <= Members(groups) + gone
        invariant forall g', h :: Listed(groups, g', h) <==> old(Listed(groups, g', h)) && !(g' == g && h in cancelled - todo && h in old(agendaMap))
        decreases todo
      {
        var h :| h in todo;
        CancelledMembership(ruleOf, old(agendaMap), old(groups), g, h);
        var found := Remove(h);
        todo := todo - {h};
      }
      CancelTail(ruleOf, groups, g, except);
      ErasedListed(groups, g, except);
      groups := Erase(groups, g, except);
      CancelEffect(ruleOf, old(agendaMap), old(groups), g, except, agendaMap, groups);
    }

    /** `remove_activations_with_fact_id`: exactly the activations whose token mentions the fact go. */
    method RemoveActivationsWithFact(id: int)
      requires Valid()
      modifies this`agendaMap, this`groups
      ensures Valid()
      ensures agendaMap == map h | h in old(agendaMap) && !Uses(old(agendaMap)[h], id) :: old(agendaMap)[h]
      ensures forall g, h :: Listed(groups, g, h) <==>
        old(Listed(groups, g, h)) && !(h in old(agendaMap) && Uses(old(agendaMap)[h], id) && old(agendaMap)[h].rule.activationGroup == Some(g))
      ensures old(Covers(agendaMap, groups)) ==> Covers(agendaMap, groups)
    {
      hide Members, Covers, Queued, QueueNamed, IndexNamed, Uses;
      var toRemove: set<nat> := {};
      var todo := agendaMap.Keys;
      while todo != {}
        invariant Valid() && agendaMap == old(agendaMap) && groups == old(groups)
        invariant todo <= agendaMap.Keys && toRemove <= agendaMap.Keys
        invariant forall h :: h in agendaMap && h !in todo ==> (h in toRemove <==> Uses(agendaMap[h], id))
        invariant forall h :: h in toRemove ==> h !in todo
        decreases todo
      {
        var h :| h in todo;
        var uses := ChainMentions(agendaMap[h], id);
        if uses { toRemove := toRemove + {h}; }
        todo := todo - {h};
      }
      ghost var all := toRemove;
      assert all <= agendaMap.Keys;
      while toRemove != {}
        invariant toRemove <= all && Valid()
        invariant agendaMap == old(agendaMap) - (all - toRemove)
        invariant forall g, h :: Listed(groups, g, h) <==>
          old(Listed(groups, g, h)) && !(h in all - toRemove && old(agendaMap)[h].rule.activationGroup == Some(g))
        invariant old(Covers(agendaMap, groups)) ==> Covers(agendaMap, groups)
        decreases toRemove
      {
        var h :| h in toRemove;
        var _ := Remove(h);
        toRemove := toRemove - {h};
      }
    }

    /** A batch popped and put back from index `k` on: only its first `k` activations are gone,
        from the map and from the group index alike. */
    method PopBatchAndRequeue(maxItems: nat, k: nat) returns (out: seq<Popped>)
      requires Valid() && Covers(agendaMap, groups)
      modifies this`agendaMap, this`agendaQueue, this`groups
      ensures Valid()
      ensures agendaMap == old(agendaMap) - Hashes(Upto(Activations(out), k))
      ensures Members(groups) == old(Members(groups)) - Memberships(Upto(Activations(out), k))
      ensures k == 0 ==> agendaMap == old(agendaMap) && groups == old(groups)
    {
      hide Members, Membership, Memberships, Covers, Drains, Queued, QueueNamed, Restored, FromMap;
      ghost var live, groups0 := agendaMap, groups;
      out := PopBatch(maxItems);
      ghost var taken := Activations(out);
      DrainsRemoves(live, Focus(), maxItems, taken, agendaMap);
      BatchNamed(ruleOf, live, out);
      Requeue(out, k);
      UndoBatch(live, groups0, taken, k);
      if k == 0 { MembersDetermine(groups, groups0); }
    }
  }

  /** What one pop does, in terms of agenda groups. */
  lemma OneTaken(ruleOf: Naming, live: Live, focus: string, stack: seq<string>, a: Activation, left: Live)
    requires LiveNamed(ruleOf, live) && Focuses(focus, stack) && Candidates(live, focus) != {} && Best(live, focus, a.hash)
    requires a == live[a.hash] && left == live - {a.hash}
    ensures TakenInOrder(live, stack, 1, [a], left) && Eligible(a, stack) && a.hash in live
  {
    assert Drains(left, focus, 0, [], left);
    assert [a][1..] == [];
    assert Drains(live, focus, 1, [a], left);
    hide Eligible, InFocus, FiresAfter, Focuses, Candidates;
    DrainsInOrder(live, focus, stack, 1, [a], left);
    assert [a][0] == a;
  }

  lemma NoneTaken(live: Live, focus: string, stack: seq<string>)
    requires Focuses(focus, stack)
    ensures Candidates(live, focus) == {} <==> forall h :: h in live ==> !Eligible(live[h], stack)
    ensures (forall h :: h in live ==> !Eligible(live[h], stack)) ==> TakenInOrder(live, stack, 1, [], live)
  {
    NoneEligible(live, focus, stack);
    hide Eligible;
    assert live - Hashes([]) == live;
  }

  lemma CoversShrink(live: Live, groups: GroupIndex, h: nat)
    ensures Covers(live, groups) ==> Covers(live - {h}, groups)
  {
  }

  lemma CoversBatch(live: Live, groups: GroupIndex, focus: string, n: nat, taken: seq<Activation>, left: Live, groups': GroupIndex)
    requires Filed(live) && Drains(live, focus, n, taken, left)
    requires Members(groups') == Members(groups) - Memberships(taken)
    ensures Covers(live, groups) ==> Covers(left, groups')
  {
    DrainsRemoves(live, focus, n, taken, left);
    hide Drains, Members;
    if Covers(live, groups) {
      forall h | h in left ensures Membership(left[h]) <= Members(groups') {
        assert Membership(live[h]) <= Members(groups);
        NotTaken(live[h], taken);
      }
    }
  }

  /** An activation that was not taken shares no membership with those that were. */
  lemma NotTaken(a: Activation, taken: seq<Activation>)
    requires a.hash !in Hashes(taken)
    ensures Membership(a) !! Memberships(taken)
  {
    forall p | p in Memberships(taken) ensures p !in Membership(a) {
      var i :| 0 <= i < |taken| && p in Membership(taken[i]);
      assert taken[i].hash in Hashes(taken);
    }
  }

  // ---- Cancelling a group ----

  ghost function Pairs(g: string, hs: set<nat>): set<(string, nat)> { set h | h in hs :: (g, h) }

  lemma NotListed(live: Live, groups: GroupIndex, g: string)
    requires g !in groups
    ensures Covers(live, groups) ==> forall h :: h in live ==> !InGroup(live[h], g)
  {
    if Covers(live, groups) {
      forall h | h in live ensures !InGroup(live[h], g) {
        assert Membership(live[h]) <= Members(groups);
        assert (g, live[h].hash) !in Members(groups);
      }
    }
  }

  lemma CancelledMembership(ruleOf: Naming, live: Live, groups: GroupIndex, g: string, h: nat)
    requires LiveNamed(ruleOf, live) && IndexNamed(ruleOf, groups) && g in groups && h in groups[g]
    ensures h in live ==> Membership(live[h]) == {(g, h)} && live[h].rule.activationGroup == Some(g)
  {
    assert (g, h) in Members(groups);
  }

  lemma ErasedListed(groups: GroupIndex, g: string, h: nat)
    ensures forall g', h' :: Listed(Erase(groups, g, h), g', h') <==> Listed(groups, g', h') && !(g' == g && h' == h)
  {
    forall g', h' | Listed(groups, g', h') && !(g' == g && h' == h) ensures Listed(Erase(groups, g, h), g', h') {
      if g' == g { assert h' in groups[g] - {h}; }
    }
  }

  lemma CancelTail(ruleOf: Naming, groups: GroupIndex, g: string, except: nat)
    requires IndexNamed(ruleOf, groups)
    ensures IndexNamed(ruleOf, Erase(groups, g, except))
    ensures Members(Erase(groups, g, except)) == Members(groups) - {(g, except)}
  {
    EraseMembers(groups, g, except);
  }

  lemma CancelEffect(ruleOf: Naming, live0: Live, groups0: GroupIndex, g: string, except: nat, live: Live, groups: GroupIndex)
    requires LiveNamed(ruleOf, live0) && IndexNamed(ruleOf, groups0) && g in groups0
    requires live == live0 - (groups0[g] - {except})
    requires Members(groups) <= Members(groups0) - {(g, except)}
    requires Members(groups0) <= Members(groups) + Pairs(g, groups0[g] - {except}) + {(g, except)}
    ensures Covers(live0, groups0) ==>
      forall h :: h in live0 ==> (h in live <==> h == except || !InGroup(live0[h], g))
    ensures Covers(live0, groups0) ==> (Covers(live, groups) <==> !(except in live0 && InGroup(live0[except], g)))
  {
    if Covers(live0, groups0) {
      forall h | h in live0 ensures h in live <==> h == except || !InGroup(live0[h], g) {
        assert Membership(live0[h]) <= Members(groups0);
        if h in groups0[g] { CancelledMembership(ruleOf, live0, groups0, g, h); }
      }
      if except in live0 && InGroup(live0[except], g) {
        assert except in live && (g, except) in Membership(live[except]);
        assert !(Membership(live[except]) <= Members(groups));
      } else {
        forall h | h in live ensures Membership(live[h]) <= Members(groups) {
          assert Membership(live0[h]) <= Members(groups0);
        }
      }
    }
  }

  /** Cancelling a group around a hash that is still live: the activation stays, its listing goes. */
  method CancelLiveExample() returns (agenda: Agenda, a: Activation)
    ensures fresh(agenda) && agenda.Valid() && agenda.agendaMap == map[a.hash := a]
    ensures !Covers(agenda.agendaMap, agenda.groups)
  {
    var rule := Rule("r", 0, None, Some("g"));
    a := Activation(rule, None, 1);
    agenda := new Agenda(_ => rule);
    hide LiveNamed, QueueNamed, Queued, IndexNamed;
    agenda.Add(a);
    OneListed(agenda.agendaMap, agenda.groups, a, "g");
    hide Covers, Members;
    agenda.CancelActivationGroup("g", 1);
  }

  /** With nothing focused a rule without agenda group fires. */
  method UngroupedExample() returns (r: Option<Activation>)
    ensures r == Some(Activation(Rule("r", 0, None, None), None, 1))
  {
    var rule := Rule("r", 0, None, None);
    var agenda := new Agenda(_ => rule);
    hide LiveNamed, QueueNamed, Queued, IndexNamed, Covers, Members, Best;
    agenda.Add(Activation(rule, None, 1));
    assert 1 in agenda.agendaMap;
    r := agenda.PopNext();
    ghost var taken := [r.value];
    assert taken[0].hash in map[1 := Activation(rule, None, 1)];
  }

  /** With another group focused it does not. */
  method OtherFocusExample() returns (r: Option<Activation>)
    ensures r == None
  {
    var rule := Rule("r", 0, None, None);
    var agenda := new Agenda(_ => rule);
    hide LiveNamed, QueueNamed, Queued, IndexNamed, Covers, Members, TakenInOrder, Best;
    agenda.Add(Activation(rule, None, 1));
    agenda.SetFocus("other");
    r := agenda.PopNext();
  }

  lemma OneListed(live: Live, groups: GroupIndex, a: Activation, g: string)
    requires live == map[a.hash := a] && InGroup(a, g) && (g, a.hash) in Members(groups)
    ensures Covers(live, groups) && g in groups
  {
  }

  // ---- Facts behind an activation ----

  /** The walk of the code: up the parent chain while the depth is positive. */
  predicate Mentions(w: Wme, id: int) {
    match w
    case Root => false
    case Node(p, f, d) => d > 0 && (f == Some(id) || Mentions(p, id))
  }

  predicate Uses(a: Activation, id: int) { a.wme.Some? && Mentions(a.wme.value, id) }

  method ChainMentions(a: Activation, id: int) returns (r: bool)
    ensures r <==> Uses(a, id)
  {
    if a.wme.None? { return false; }
    var curr := a.wme.value;
    while curr.Node? && curr.depth > 0
      invariant Mentions(a.wme.value, id) == Mentions(curr, id)
      decreases curr
    {
      if curr.factId == Some(id) { return true; }
      curr := curr.parent;
    }
    return false;
  }

  function FactIds(w: Wme): set<int> {
    match w
    case Root => {}
    case Node(p, f, _) => FactIds(p) + (if f.Some? then {f.value} else {})
  }

  function DepthOf(w: Wme): int { if w.Root? then 0 else w.depth }

  predicate DepthCounts(w: Wme) { w.Node? ==> w.depth == DepthOf(w.parent) + 1 && DepthCounts(w.parent) }

  /** When depths count the chain, the walk sees every fact of the token. */
  lemma {:induction false} MentionsExact(w: Wme, id: int)
    requires DepthCounts(w)
    ensures DepthOf(w) >= 0 && (Mentions(w, id) <==> id in FactIds(w))
  {
    match w
    case Root =>
    case Node(p, f, d) => MentionsExact(p, id);
  }

  function From(as_: seq<Activation>, k: nat): seq<Activation> { if k >= |as_| then [] else as_[k..] }

  function Upto(as_: seq<Activation>, k: nat): seq<Activation> { if k >= |as_| then as_ else as_[..k] }

  lemma NoMemberships()
    ensures Memberships([]) == {} && Hashes([]) == {}
  {
  }

  lemma BatchNamed(ruleOf: Naming, live: Live, out: seq<Popped>)
    requires LiveNamed(ruleOf, live) && FromMap(live, Activations(out))
    ensures forall i :: 0 <= i < |out| ==> Named(ruleOf, out[i].activation)
  {
    forall i | 0 <= i < |out| ensures Named(ruleOf, out[i].activation) {
      assert Activations(out)[i] == out[i].activation;
    }
  }

  lemma UndoBatch(live: Live, groups: GroupIndex, taken: seq<Activation>, k: nat)
    requires FromMap(live, taken) && Covers(live, groups)
    ensures Restored(live - Hashes(taken), From(taken, k)) == live - Hashes(Upto(taken, k))
    ensures Members(groups) - Memberships(taken) + Memberships(From(taken, k)) == Members(groups) - Memberships(Upto(taken, k))
    ensures k == 0 ==> live - Hashes(Upto(taken, k)) == live && Members(groups) - Memberships(Upto(taken, k)) == Members(groups)
  {
    hide Members, Membership, Memberships, Covers, FromMap, Restored;
    NoMemberships();
    var m := if k >= |taken| then |taken| else k;
    assert taken[..|taken|] == taken && taken[|taken|..] == [];
    assert From(taken, k) == taken[m..] && Upto(taken, k) == taken[..m];
    RestoreUndoes(live, taken, m);
    MembershipsApart(live, taken, m);
    CoveredBatch(live, groups, taken);
    assert k == 0 ==> Upto(taken, k) == [];
  }

  lemma BatchStart(live: Live, focus: string, groups: GroupIndex)
    ensures Drains(live, focus, 0, [], live)
    ensures Members(groups) - Memberships([]) == Members(groups)
  {
  }

  lemma IndexStaysNamed(ruleOf: Naming, groups: GroupIndex, a: Activation)
    requires IndexNamed(ruleOf, groups)
    ensures IndexNamed(ruleOf, Unindexed(groups, a))
  {
    IndexMembers(groups, a);
  }

  /** What a batch pop has done so far. */
  ghost predicate BatchState(ruleOf: Naming, live0: Live, groups0: GroupIndex, focus: string, out: seq<Popped>, live: Live, groups: GroupIndex) {
    && Drains(live0, focus, |out|, Activations(out), live) && IndexNamed(ruleOf, groups)
    && Members(groups) == Members(groups0) - Memberships(Activations(out))
    && forall i :: 0 <= i < |out| ==> out[i].salience == out[i].activation.rule.salience
  }

  lemma BatchBegin(ruleOf: Naming, live: Live, groups: GroupIndex, focus: string)
    requires IndexNamed(ruleOf, groups)
    ensures BatchState(ruleOf, live, groups, focus, [], live, groups)
  {
  }

  lemma BatchTake(ruleOf: Naming, live0: Live, groups0: GroupIndex, focus: string, out: seq<Popped>, live: Live, groups: GroupIndex, a: Activation)
    requires BatchState(ruleOf, live0, groups0, focus, out, live, groups)
    requires Candidates(live, focus) != {} && Best(live, focus, a.hash) && a == live[a.hash]
    ensures BatchState(ruleOf, live0, groups0, focus, out + [Popped(a.rule.salience, a)], live - {a.hash}, Unindexed(groups, a))
  {
    hide Drains, Best, Candidates, Members, Memberships, Membership;
    DrainsMore(live0, focus, |out|, Activations(out), live, a);
    MembershipsMore(Activations(out), a);
    IndexMembers(groups, a);
    IndexStaysNamed(ruleOf, groups, a);
    assert Activations(out + [Popped(a.rule.salience, a)]) == Activations(out) + [a];
  }

  lemma BatchEnd(ruleOf: Naming, live0: Live, groups0: GroupIndex, focus: string, out: seq<Popped>, live: Live, groups: GroupIndex, n: nat)
    requires BatchState(ruleOf, live0, groups0, focus, out, live, groups) && |out| <= n
    requires |out| == n || Candidates(live, focus) == {}
    ensures Drains(live0, focus, n, Activations(out), live) && IndexNamed(ruleOf, groups)
    ensures Members(groups) == Members(groups0) - Memberships(Activations(out))
    ensures forall i :: 0 <= i < |out| ==> out[i].salience == out[i].activation.rule.salience
  {
    hide Candidates, Members, Memberships;
    if |out| < n { DrainsDone(live0, focus, |out|, n, Activations(out), live); }
  }

  lemma ScanEnd(ruleOf: Naming, live: Live, focus: string, q: multiset<Entry>, d: seq<Entry>)
    requires Scanning(ruleOf, live, focus, q, d)
    ensures LiveNamed(ruleOf, live) && QueueNamed(ruleOf, q + multiset(d)) && Queued(live, q + multiset(d))
    ensures Filed(live)
  {
  }
}
