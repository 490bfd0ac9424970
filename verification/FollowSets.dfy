/** `FindFollowSets`: follow sets pushed along propagation links until nothing changes.
    Configurations are numbered `0..n`; `links[c]` lists the configurations that `c`
    propagates to. */
module FollowSets {

  type Links = seq<seq<nat>>
  type Sets = seq<set<nat>>

  predicate ValidLinks(links: Links) {
    forall c, j :: 0 <= c < |links| && 0 <= j < |links[c]| ==> links[c][j] < |links|
  }

  // ---- The specification: reachability ----

  /** A path of exactly `k` links from `a` to `b`. */
  ghost predicate ReachesIn(links: Links, k: nat, a: nat, b: nat) {
    if k == 0 then a == b
    else exists m: nat :: ReachesIn(links, k - 1, a, m) && m < |links| && b in links[m]
  }

  ghost predicate Reaches(links: Links, a: nat, b: nat) {
    exists k: nat :: ReachesIn(links, k, a, b)
  }

  /** `t` belongs to the initial set of some configuration from which `c` is reachable. */
  ghost predicate Inherits(links: Links, init: Sets, c: nat, t: nat) {
    exists a: nat :: a < |init| && t in init[a] && Reaches(links, a, c)
  }

  ghost predicate LeastFollow(links: Links, init: Sets, fws: Sets) {
    |fws| == |init| && forall c: nat, t: nat :: c < |fws| ==> (t in fws[c] <==> Inherits(links, init, c, t))
  }

  // ---- What the loops maintain ----

  ghost predicate Sound(links: Links, init: Sets, fws: Sets) {
    |fws| == |init| && forall c: nat, t: nat :: c < |fws| && t in fws[c] ==> Inherits(links, init, c, t)
  }

  predicate Above(init: Sets, fws: Sets) {
    |fws| == |init| && forall c :: 0 <= c < |init| ==> init[c] <= fws[c]
  }

  /** `c` has passed its whole set on to its successors. */
  predicate Passed(links: Links, fws: Sets, c: nat)
    requires |links| == |fws| && ValidLinks(links) && c < |fws|
  {
    forall j :: 0 <= j < |links[c]| ==> fws[c] <= fws[links[c][j]]
  }

  /** A configuration marked COMPLETE has nothing left to pass on. */
  predicate MarksHold(links: Links, fws: Sets, complete: seq<bool>)
    requires |links| == |fws| && ValidLinks(links)
  {
    |complete| == |fws| && forall c :: 0 <= c < |fws| && complete[c] ==> Passed(links, fws, c)
  }

  ghost function Missing(bound: nat, fws: Sets): set<(nat, nat)> {
    set c, t | 0 <= c < |fws| && 0 <= t < bound && t !in fws[c] :: (c, t)
  }

  predicate Bounded(bound: nat, fws: Sets) {
    forall c, t :: 0 <= c < |fws| && t in fws[c] ==> t < bound
  }

  lemma ReachesLink(links: Links, a: nat, c: nat, d: nat)
    requires Reaches(links, a, c) && c < |links| && d in links[c]
    ensures Reaches(links, a, d)
  {
    var k: nat :| ReachesIn(links, k, a, c);
    assert ReachesIn(links, k + 1, a, d);
  }

  /** Passing a set along one link keeps soundness and the marks of everything but the receiver. */
  lemma PassSound(links: Links, init: Sets, fws: Sets, c: nat, d: nat)
    requires Sound(links, init, fws) && c < |fws| == |links| && d in links[c] && d < |fws|
    ensures Sound(links, init, fws[d := fws[d] + fws[c]])
  {
    forall t: nat | t in fws[c] ensures Inherits(links, init, d, t) {
      assert Inherits(links, init, c, t);
      var a: nat :| a < |init| && t in init[a] && Reaches(links, a, c);
      ReachesLink(links, a, c, d);
    }
  }

  lemma PassMarks(links: Links, fws: Sets, complete: seq<bool>, c: nat, d: nat)
    requires |links| == |fws| && ValidLinks(links) && MarksHold(links, fws, complete)
    requires c < |fws| && d < |fws|
    ensures MarksHold(links, fws[d := fws[d] + fws[c]], complete[d := false])
  {
    var fws', complete' := fws[d := fws[d] + fws[c]], complete[d := false];
    forall e | 0 <= e < |fws| && complete'[e] ensures Passed(links, fws', e) {
      assert Passed(links, fws, e);
    }
  }

  lemma PassMissing(bound: nat, fws: Sets, c: nat, d: nat)
    requires c < |fws| && d < |fws| && Bounded(bound, fws) && !(fws[c] <= fws[d])
    ensures Missing(bound, fws[d := fws[d] + fws[c]]) < Missing(bound, fws)
    ensures Bounded(bound, fws[d := fws[d] + fws[c]])
  {
    var t :| t in fws[c] && t !in fws[d];
    var m, m' := Missing(bound, fws), Missing(bound, fws[d := fws[d] + fws[c]]);
    assert (d, t) in m && (d, t) !in m';
    assert m' <= m;
  }

  /** The state of the computation, bundled. */
  ghost predicate State(links: Links, init: Sets, bound: nat, fws: Sets, complete: seq<bool>) {
    && |links| == |fws| && ValidLinks(links)
    && Sound(links, init, fws) && Above(init, fws) && Bounded(bound, fws) && MarksHold(links, fws, complete)
  }

  lemma PassState(links: Links, init: Sets, bound: nat, fws: Sets, complete: seq<bool>, c: nat, d: nat)
    requires State(links, init, bound, fws, complete) && c < |fws| && d in links[c] && d < |fws|
    requires !(fws[c] <= fws[d])
    ensures State(links, init, bound, fws[d := fws[d] + fws[c]], complete[d := false])
    ensures Missing(bound, fws[d := fws[d] + fws[c]]) < Missing(bound, fws)
  {
    PassSound(links, init, fws, c, d);
    PassMarks(links, fws, complete, c, d);
    PassMissing(bound, fws, c, d);
  }

  /** Pass the set of `c` along all its links: the body of the configuration loop. */
  method PassOn(links: Links, ghost init: Sets, ghost bound: nat, fws: Sets, complete: seq<bool>, c: nat)
    returns (fws': Sets, complete': seq<bool>, change: bool)
    requires State(links, init, bound, fws, complete) && c < |fws|
    ensures State(links, init, bound, fws', complete') && complete'[c]
    ensures if change then Missing(bound, fws') < Missing(bound, fws) else fws' == fws && complete' == complete[c := true]
  {
    hide Sound, Above, Bounded, MarksHold, Missing;
    fws', complete', change := fws, complete, false;
    MarksSized(links, fws, complete);
    for j := 0 to |links[c]|
      invariant State(links, init, bound, fws', complete') && |fws'| == |fws| && |complete'| == |fws|
      invariant fws'[c] == fws[c]
      invariant forall i :: 0 <= i < j ==> fws[c] <= fws'[links[c][i]]
      invariant if change then Missing(bound, fws') < Missing(bound, fws) else fws' == fws && complete' == complete
    {
      var d := links[c][j];
      if !(fws'[c] <= fws'[d]) {
        PassState(links, init, bound, fws', complete', c, d);
        fws' := fws'[d := fws'[d] + fws'[c]];
        complete' := complete'[d := false];
        change := true;
      }
    }
    assert Passed(links, fws', c);
    complete' := CompleteOne(links, fws', complete', c);
  }

  function CompleteOne(links: Links, fws: Sets, complete: seq<bool>, c: nat): (r: seq<bool>)
    requires |links| == |fws| && ValidLinks(links) && MarksHold(links, fws, complete) && c < |fws| && Passed(links, fws, c)
    ensures MarksHold(links, fws, r) && |complete| == |fws| && r == complete[c := true]
  {
    complete[c := true]
  }

  /** `FindFollowSets`: terminates, also on cyclic links, and gives every configuration the
      union of the initial sets of all configurations that reach it. */
  method FindFollowSets(links: Links, init: Sets, bound: nat) returns (fws: Sets)
    requires |links| == |init| && ValidLinks(links) && Bounded(bound, init)
    ensures LeastFollow(links, init, fws)
  {
    hide Sound, Above, Bounded, MarksHold, Missing;
    fws := init;
    var complete := seq(|links|, _ => false);
    Started(links, init, bound);
    var progress := true;
    while progress
      invariant State(links, init, bound, fws, complete) && |complete| == |fws|
      invariant !progress ==> forall c :: 0 <= c < |fws| ==> complete[c]
      decreases Missing(bound, fws), progress
    {
      progress := false;
      ghost var before := fws;
      for c := 0 to |links|
        invariant State(links, init, bound, fws, complete) && |complete| == |fws|
        invariant if progress then Missing(bound, fws) < Missing(bound, before) else fws == before
        invariant !progress ==> forall e :: 0 <= e < c ==> complete[e]
      {
        if !complete[c] {
          var change;
          fws, complete, change := PassOn(links, init, bound, fws, complete, c);
          progress := progress || change;
          MarksSized(links, fws, complete);
        }
      }
    }
    AllPassed(links, init, bound, fws, complete);
  }

  lemma MarksSized(links: Links, fws: Sets, complete: seq<bool>)
    requires |links| == |fws| && ValidLinks(links) && MarksHold(links, fws, complete)
    ensures |complete| == |fws|
  {
  }

  lemma Started(links: Links, init: Sets, bound: nat)
    requires |links| == |init| && ValidLinks(links) && Bounded(bound, init)
    ensures State(links, init, bound, init, seq(|links|, _ => false))
  {
    forall c: nat, t: nat | c < |init| && t in init[c] ensures Inherits(links, init, c, t) {
      assert ReachesIn(links, 0, c, c);
    }
  }

  /** Once every configuration is complete the sets are closed, hence least. */
  lemma AllPassed(links: Links, init: Sets, bound: nat, fws: Sets, complete: seq<bool>)
    requires State(links, init, bound, fws, complete) && |complete| == |fws|
    requires forall c :: 0 <= c < |fws| ==> complete[c]
    ensures LeastFollow(links, init, fws)
  {
    forall c: nat, t: nat | c < |fws| && Inherits(links, init, c, t) ensures t in fws[c] {
      var a: nat :| a < |init| && t in init[a] && Reaches(links, a, c);
      var k: nat :| ReachesIn(links, k, a, c);
      ClosedAlong(links, init, fws, k, a, c, t);
    }
  }

  lemma {:induction false} ClosedAlong(links: Links, init: Sets, fws: Sets, k: nat, a: nat, c: nat, t: nat)
    requires |links| == |fws| && ValidLinks(links) && Above(init, fws)
    requires forall e :: 0 <= e < |fws| ==> Passed(links, fws, e)
    requires a < |init| && t in init[a] && ReachesIn(links, k, a, c)
    ensures c < |fws| && t in fws[c]
  {
    if k > 0 {
      var m: nat :| ReachesIn(links, k - 1, a, m) && m < |links| && c in links[m];
      ClosedAlong(links, init, fws, k - 1, a, m, t);
      assert Passed(links, fws, m);
      var j :| 0 <= j < |links[m]| && links[m][j] == c;
    }
  }
}
