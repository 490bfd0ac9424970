/** The bottom-up list sort `msort` with its fixed array of 30 buckets.  Lists are
    sequences; the order and identity of their nodes is what is proved. */
module MergeSort {

  const LISTSIZE := 30

  /** A comparison function usable for sorting: `cmp(a, b) <= 0` is total and transitive. */
  ghost predicate TotalPreorder<T(!new)>(cmp: (T, T) -> int) {
    && (forall a, b :: cmp(a, b) <= 0 || cmp(b, a) <= 0)
    && (forall a, b, c :: cmp(a, b) <= 0 && cmp(b, c) <= 0 ==> cmp(a, c) <= 0)
  }

  ghost predicate Sorted<T(!new)>(cmp: (T, T) -> int, s: seq<T>) {
    forall i, j :: 0 <= i < j < |s| ==> cmp(s[i], s[j]) <= 0
  }

  predicate Tied<T>(cmp: (T, T) -> int, x: T, y: T) { cmp(x, y) <= 0 && cmp(y, x) <= 0 }

  /** The elements of `s` that compare equal to `x`, in the order they occur. */
  ghost function Ties<T(!new)>(cmp: (T, T) -> int, x: T, s: seq<T>): seq<T> {
    if s == [] then []
    else if Tied(cmp, x, s[0]) then [s[0]] + Ties(cmp, x, s[1..])
    else Ties(cmp, x, s[1..])
  }

  /** `t` is a stable rearrangement of `s`: the same elements, with every class of
      equal elements in its original order. */
  ghost predicate StableRearrangement<T(!new)>(cmp: (T, T) -> int, s: seq<T>, t: seq<T>) {
    multiset(s) == multiset(t) && forall x :: Ties(cmp, x, s) == Ties(cmp, x, t)
  }

  // ---- Merging two runs ----

  function Merged<T>(cmp: (T, T) -> int, a: seq<T>, b: seq<T>): seq<T> {
    if a == [] then b
    else if b == [] then a
    else if cmp(a[0], b[0]) <= 0 then [a[0]] + Merged(cmp, a[1..], b)
    else [b[0]] + Merged(cmp, a, b[1..])
  }

  /** `merge`: the loop that takes from `a` on ties and appends what is left over. */
  method Merge<T>(cmp: (T, T) -> int, a: seq<T>, b: seq<T>) returns (head: seq<T>)
    ensures head == Merged(cmp, a, b)
  {
    hide Merged;
    MergedNil(cmp, a);
    MergedNil(cmp, b);
    if a == [] { return b; }
    if b == [] { return a; }
    head := [];
    var i, j := 0, 0;
    assert a[0..] == a && b[0..] == b;
    while i < |a| && j < |b|
      invariant 0 <= i <= |a| && 0 <= j <= |b|
      invariant Merged(cmp, a, b) == head + Merged(cmp, a[i..], b[j..])
      decreases |a| - i + |b| - j
    {
      MergedHead(cmp, a, b, i, j);
      if cmp(a[i], b[j]) <= 0 {
        head := head + [a[i]];
        i := i + 1;
      } else {
        head := head + [b[j]];
        j := j + 1;
      }
    }
    MergedNil(cmp, a[i..]);
    MergedNil(cmp, b[j..]);
    head := if i < |a| then head + a[i..] else head + b[j..];
  }

  lemma MergedNil<T>(cmp: (T, T) -> int, s: seq<T>)
    ensures Merged(cmp, [], s) == s == Merged(cmp, s, [])
  {
  }

  lemma MergedHead<T>(cmp: (T, T) -> int, a: seq<T>, b: seq<T>, i: nat, j: nat)
    requires i < |a| && j < |b|
    ensures Merged(cmp, a[i..], b[j..]) ==
      if cmp(a[i], b[j]) <= 0 then [a[i]] + Merged(cmp, a[i + 1..], b[j..]) else [b[j]] + Merged(cmp, a[i..], b[j + 1..])
  {
    assert a[i..][1..] == a[i + 1..] && b[j..][1..] == b[j + 1..];
  }

  lemma {:induction false} MergedSameElements<T>(cmp: (T, T) -> int, a: seq<T>, b: seq<T>)
    ensures multiset(Merged(cmp, a, b)) == multiset(a) + multiset(b)
    decreases |a| + |b|
  {
    if a != [] && b != [] {
      if cmp(a[0], b[0]) <= 0 {
        assert a == [a[0]] + a[1..];
        MergedSameElements(cmp, a[1..], b);
      } else {
        assert b == [b[0]] + b[1..];
        MergedSameElements(cmp, a, b[1..]);
      }
    }
  }

  ghost predicate Below<T(!new)>(cmp: (T, T) -> int, x: T, s: seq<T>) {
    forall y :: y in multiset(s) ==> cmp(x, y) <= 0
  }

  lemma BelowMerged<T(!new)>(cmp: (T, T) -> int, x: T, h: T, a: seq<T>, b: seq<T>)
    requires TotalPreorder(cmp) && Below(cmp, x, a) && Below(cmp, h, b) && cmp(x, h) <= 0
    ensures Below(cmp, x, Merged(cmp, a, b)) && Below(cmp, x, Merged(cmp, b, a))
  {
    MergedSameElements(cmp, a, b);
    MergedSameElements(cmp, b, a);
  }

  lemma SortedCons<T(!new)>(cmp: (T, T) -> int, x: T, s: seq<T>)
    requires Sorted(cmp, s) && Below(cmp, x, s)
    ensures Sorted(cmp, [x] + s)
  {
    assert forall j :: 0 <= j < |s| ==> s[j] in multiset(s);
  }

  lemma HeadIsLeast<T(!new)>(cmp: (T, T) -> int, s: seq<T>)
    requires Sorted(cmp, s) && s != []
    ensures Below(cmp, s[0], s[1..]) && Sorted(cmp, s[1..])
  {
    forall y | y in multiset(s[1..]) ensures cmp(s[0], y) <= 0 {
      var k :| 0 <= k < |s[1..]| && s[1..][k] == y;
      assert y == s[k + 1];
    }
  }

  lemma BelowWhole<T(!new)>(cmp: (T, T) -> int, s: seq<T>)
    requires TotalPreorder(cmp) && s != [] && Below(cmp, s[0], s[1..])
    ensures Below(cmp, s[0], s)
  {
    assert s == [s[0]] + s[1..];
    assert cmp(s[0], s[0]) <= 0;
  }

  lemma {:induction false} MergedSorted<T(!new)>(cmp: (T, T) -> int, a: seq<T>, b: seq<T>)
    requires TotalPreorder(cmp) && Sorted(cmp, a) && Sorted(cmp, b)
    ensures Sorted(cmp, Merged(cmp, a, b))
    decreases |a| + |b|
  {
    hide Sorted, Below;
    if a != [] && b != [] {
      HeadIsLeast(cmp, a);
      HeadIsLeast(cmp, b);
      BelowWhole(cmp, a);
      BelowWhole(cmp, b);
      if cmp(a[0], b[0]) <= 0 {
        MergedSorted(cmp, a[1..], b);
        BelowMerged(cmp, a[0], b[0], a[1..], b);
        SortedCons(cmp, a[0], Merged(cmp, a[1..], b));
      } else {
        MergedSorted(cmp, a, b[1..]);
        BelowMerged(cmp, b[0], a[0], b[1..], a);
        SortedCons(cmp, b[0], Merged(cmp, a, b[1..]));
      }
    }
  }

  lemma {:induction false} TiesConcat<T(!new)>(cmp: (T, T) -> int, x: T, s: seq<T>, t: seq<T>)
    ensures Ties(cmp, x, s + t) == Ties(cmp, x, s) + Ties(cmp, x, t)
  {
    if s == [] {
      assert s + t == t;
    } else {
      assert (s + t)[1..] == s[1..] + t;
      TiesConcat(cmp, x, s[1..], t);
    }
  }

  lemma {:induction false} NoTies<T(!new)>(cmp: (T, T) -> int, x: T, s: seq<T>)
    requires forall k :: 0 <= k < |s| ==> !Tied(cmp, x, s[k])
    ensures Ties(cmp, x, s) == []
  {
    if s != [] { NoTies(cmp, x, s[1..]); }
  }

  /** Merging keeps the first run ahead of the second within each class of equals. */
  lemma {:induction false} MergedStable<T(!new)>(cmp: (T, T) -> int, a: seq<T>, b: seq<T>, x: T)
    requires TotalPreorder(cmp) && Sorted(cmp, a) && Sorted(cmp, b)
    ensures Ties(cmp, x, Merged(cmp, a, b)) == Ties(cmp, x, a) + Ties(cmp, x, b)
    decreases |a| + |b|
  {
    if a != [] && b != [] {
      if cmp(a[0], b[0]) <= 0 {
        MergedStable(cmp, a[1..], b, x);
        TiesConcat(cmp, x, [a[0]], Merged(cmp, a[1..], b));
        assert a == [a[0]] + a[1..];
        TiesConcat(cmp, x, [a[0]], a[1..]);
      } else {
        MergedStable(cmp, a, b[1..], x);
        TiesConcat(cmp, x, [b[0]], Merged(cmp, a, b[1..]));
        assert b == [b[0]] + b[1..];
        TiesConcat(cmp, x, [b[0]], b[1..]);
        if Tied(cmp, x, b[0]) {
          assert forall k :: 0 <= k < |a| ==> cmp(a[0], a[k]) <= 0;
          NoTies(cmp, x, a);
        }
      }
    }
  }

  // ---- The buckets ----

  /** The contents of buckets `i` and up, oldest (highest) first. */
  ghost function Pile<T>(buckets: seq<seq<T>>, i: nat): seq<T>
    decreases |buckets| - i
  {
    if i >= |buckets| then [] else Pile(buckets, i + 1) + buckets[i]
  }

  lemma {:induction false} PileUpdateBelow<T>(buckets: seq<seq<T>>, i: nat, k: nat, v: seq<T>)
    requires k < i && k < |buckets|
    ensures Pile(buckets[k := v], i) == Pile(buckets, i)
    decreases |buckets| - i
  {
    if i < |buckets| { PileUpdateBelow(buckets, i + 1, k, v); }
  }

  lemma {:induction false} PileSkipEmpty<T>(buckets: seq<seq<T>>, i: nat)
    requires i <= |buckets| && forall k :: 0 <= k < i ==> buckets[k] == []
    ensures Pile(buckets, 0) == Pile(buckets, i)
  {
    if i > 0 { PileSkipEmpty(buckets, i - 1); }
  }

  ghost predicate Runs<T(!new)>(cmp: (T, T) -> int, buckets: seq<seq<T>>) {
    forall k :: 0 <= k < |buckets| ==> Sorted(cmp, buckets[k])
  }

  lemma RearrangementContext<T(!new)>(cmp: (T, T) -> int, s: seq<T>, t: seq<T>, suffix: seq<T>)
    requires StableRearrangement(cmp, s, t)
    ensures StableRearrangement(cmp, s + suffix, t + suffix)
  {
    forall x ensures Ties(cmp, x, s + suffix) == Ties(cmp, x, t + suffix) {
      TiesConcat(cmp, x, s, suffix);
      TiesConcat(cmp, x, t, suffix);
    }
  }

  lemma TiesOfMerge<T(!new)>(cmp: (T, T) -> int, high: seq<T>, a: seq<T>, b: seq<T>, x: T)
    requires TotalPreorder(cmp) && Sorted(cmp, a) && Sorted(cmp, b)
    ensures Ties(cmp, x, (high + a) + b) == Ties(cmp, x, high + Merged(cmp, a, b))
  {
    TiesConcat(cmp, x, high + a, b);
    TiesConcat(cmp, x, high, a);
    TiesConcat(cmp, x, high, Merged(cmp, a, b));
    MergedStable(cmp, a, b, x);
  }

  /** Merging a carried run into bucket `i` keeps everything seen so far accounted for. */
  lemma BucketMerge<T(!new)>(cmp: (T, T) -> int, seen: seq<T>, buckets: seq<seq<T>>, i: nat, ep: seq<T>)
    requires TotalPreorder(cmp) && Runs(cmp, buckets) && Sorted(cmp, ep) && i < |buckets|
    requires StableRearrangement(cmp, seen, Pile(buckets, i) + ep)
    ensures Sorted(cmp, Merged(cmp, buckets[i], ep))
    ensures StableRearrangement(cmp, seen, Pile(buckets, i + 1) + Merged(cmp, buckets[i], ep))
  {
    MergedSorted(cmp, buckets[i], ep);
    MergedSameElements(cmp, buckets[i], ep);
    var high := Pile(buckets, i + 1);
    forall x ensures Ties(cmp, x, seen) == Ties(cmp, x, high + Merged(cmp, buckets[i], ep)) {
      TiesOfMerge(cmp, high, buckets[i], ep, x);
    }
  }

  /** Adding one run: merge it up through the full buckets, like a binary counter.
      The last bucket absorbs every carry that reaches it. */
  function Carried<T(==)>(cmp: (T, T) -> int, buckets: seq<seq<T>>, i: nat, ep: seq<T>): (r: seq<seq<T>>)
    requires i < |buckets|
    ensures |r| == |buckets|
    decreases |buckets| - i
  {
    if i < |buckets| - 1 && buckets[i] != []
    then Carried(cmp, buckets[i := []], i + 1, Merged(cmp, buckets[i], ep))
    else buckets[i := Merged(cmp, buckets[i], ep)]
  }

  lemma {:induction false} CarriedKeeps<T(!new)>(cmp: (T, T) -> int, seen: seq<T>, buckets: seq<seq<T>>, i: nat, ep: seq<T>)
    requires TotalPreorder(cmp) && Runs(cmp, buckets) && Sorted(cmp, ep) && i < |buckets|
    requires forall k :: 0 <= k < i ==> buckets[k] == []
    requires StableRearrangement(cmp, seen, Pile(buckets, i) + ep)
    ensures Runs(cmp, Carried(cmp, buckets, i, ep))
    ensures StableRearrangement(cmp, seen, Pile(Carried(cmp, buckets, i, ep), 0))
    decreases |buckets| - i
  {
    hide StableRearrangement, Sorted, TotalPreorder;
    TrivialRuns(cmp, ep);
    BucketMerge(cmp, seen, buckets, i, ep);
    var merged := Merged(cmp, buckets[i], ep);
    if i < |buckets| - 1 && buckets[i] != [] {
      PileUpdateBelow(buckets, i + 1, i, []);
      CarriedKeeps(cmp, seen, buckets[i := []], i + 1, merged);
    } else {
      PileUpdateBelow(buckets, i + 1, i, merged);
      PileSkipEmpty(buckets[i := merged], i);
    }
  }

  method Carry<T(==)>(cmp: (T, T) -> int, e: T, buckets: array<seq<T>>)
    requires buckets.Length == LISTSIZE
    modifies buckets
    ensures buckets[..] == Carried(cmp, old(buckets[..]), 0, [e])
  {
    var ep := [e];
    var i := 0;
    while i < LISTSIZE - 1 && buckets[i] != []
      invariant 0 <= i < LISTSIZE
      invariant Carried(cmp, old(buckets[..]), 0, [e]) == Carried(cmp, buckets[..], i, ep)
    {
      ghost var was := buckets[..];
      ep := Merge(cmp, buckets[i], ep);
      buckets[i] := [];
      assert buckets[..] == was[i := []];
      i := i + 1;
    }
    ghost var was := buckets[..];
    ep := Merge(cmp, buckets[i], ep);
    buckets[i] := ep;
    assert buckets[..] == was[i := ep];
  }

  /** `msort`: for a list of any length the result is sorted, and is a stable
      rearrangement of the input. */
  method Msort<T(!new, ==)>(cmp: (T, T) -> int, list: seq<T>) returns (r: seq<T>)
    requires TotalPreorder(cmp)
    ensures Sorted(cmp, r) && StableRearrangement(cmp, list, r)
  {
    hide StableRearrangement, Sorted, TotalPreorder, Runs;
    var buckets := new seq<T>[LISTSIZE](_ => []);
    EmptyBuckets(cmp, buckets[..]);
    for n := 0 to |list|
      invariant Runs(cmp, buckets[..])
      invariant StableRearrangement(cmp, list[..n], Pile(buckets[..], 0))
    {
      RearrangementContext(cmp, list[..n], Pile(buckets[..], 0), [list[n]]);
      assert list[..n + 1] == list[..n] + [list[n]];
      TrivialRuns(cmp, [list[n]]);
      CarriedKeeps(cmp, list[..n + 1], buckets[..], 0, [list[n]]);
      Carry(cmp, list[n], buckets);
    }
    assert list[..|list|] == list;
    r := Drain(cmp, list, buckets[..]);
  }

  /** The closing loop: merge all buckets, lowest first. */
  method Drain<T(!new, ==)>(cmp: (T, T) -> int, ghost seen: seq<T>, buckets: seq<seq<T>>) returns (r: seq<T>)
    requires TotalPreorder(cmp) && Runs(cmp, buckets) && StableRearrangement(cmp, seen, Pile(buckets, 0))
    ensures Sorted(cmp, r) && StableRearrangement(cmp, seen, r)
  {
    hide StableRearrangement, Sorted, TotalPreorder, Runs;
    r := [];
    TrivialRuns(cmp, r);
    assert Pile(buckets, 0) + r == Pile(buckets, 0);
    for i := 0 to |buckets|
      invariant Sorted(cmp, r)
      invariant StableRearrangement(cmp, seen, Pile(buckets, i) + r)
    {
      BucketMerge(cmp, seen, buckets, i, r);
      r := Merge(cmp, buckets[i], r);
    }
    assert Pile(buckets, |buckets|) + r == r;
  }

  lemma EmptyBuckets<T(!new)>(cmp: (T, T) -> int, buckets: seq<seq<T>>)
    requires forall k :: 0 <= k < |buckets| ==> buckets[k] == []
    ensures Runs(cmp, buckets) && Pile(buckets, 0) == []
    ensures StableRearrangement(cmp, [], Pile(buckets, 0))
  {
    PileSkipEmpty(buckets, |buckets|);
  }

  lemma TrivialRuns<T(!new)>(cmp: (T, T) -> int, s: seq<T>)
    ensures Sorted(cmp, [])
    ensures |s| == 1 ==> Sorted(cmp, s)
  {
  }

  // ---- Distinctness survives rearrangement ----

  predicate NoRepeats<T(==)>(s: seq<T>) {
    forall i, j :: 0 <= i < j < |s| ==> s[i] != s[j]
  }

  lemma {:induction false} OnceIn<T>(s: seq<T>, x: T)
    requires NoRepeats(s)
    ensures multiset(s)[x] <= 1
  {
    if s != [] {
      var m := |s| - 1;
      assert s == s[..m] + [s[m]];
      OnceIn(s[..m], x);
      assert x == s[m] ==> x !in s[..m];
    }
  }

  lemma TwiceIn<T>(r: seq<T>, i: nat, j: nat)
    requires i < j < |r| && r[i] == r[j]
    ensures multiset(r)[r[i]] >= 2
  {
    assert r == r[..i] + [r[i]] + r[i + 1..j] + [r[j]] + r[j + 1..];
  }

  /** A rearrangement has the same elements, and no repeats if the original has none. */
  lemma RearrangedElements<T>(s: seq<T>, r: seq<T>)
    requires multiset(s) == multiset(r)
    ensures forall x :: x in r <==> x in s
    ensures NoRepeats(s) ==> NoRepeats(r)
  {
    assert forall x :: x in s <==> x in multiset(s);
    assert forall x :: x in r <==> x in multiset(r);
    if NoRepeats(s) {
      forall i, j | 0 <= i < j < |r| ensures r[i] != r[j] {
        OnceIn(s, r[i]);
        if r[i] == r[j] {
          TwiceIn(r, i, j);
          assert false;
        }
      }
    }
  }
}
