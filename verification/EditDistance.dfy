/** The edit distance behind the analyzer's "did you mean" hints. */
module EditDistance {

  function Min(a: nat, b: nat): nat { if a <= b then a else b }

  function Cost(a: char, b: char): nat { if a == b then 0 else 1 }

  function Init(s: string): string
    requires s != ""
  {
    s[..|s| - 1]
  }

  function Last(s: string): char
    requires s != ""
  {
    s[|s| - 1]
  }

  /** The recursive minimum-edit distance. */
  function Distance(s: string, t: string): nat
    decreases |s| + |t|
  {
    if s == "" then |t|
    else if t == "" then |s|
    else Min(Min(Distance(Init(s), t), Distance(s, Init(t))) + 1, Distance(Init(s), Init(t)) + Cost(Last(s), Last(t)))
  }

  // ---- The two-row loop ----

  /** `row[i]` is the distance from `s` to the first `i` characters of `t`, for all `i` below `n`. */
  ghost predicate RowOf(row: seq<int>, s: string, t: string, n: nat) {
    n <= |t| + 1 && |row| == |t| + 1 && forall i :: 0 <= i < n ==> row[i] == Distance(s, t[..i])
  }

  lemma Cell(s: string, t: string, j: nat, i: nat)
    requires j < |s| && i < |t|
    ensures Distance(s[..j + 1], t[..i + 1]) ==
      Min(Min(Distance(s[..j], t[..i + 1]), Distance(s[..j + 1], t[..i])) + 1, Distance(s[..j], t[..i]) + Cost(s[j], t[i]))
  {
    assert Init(s[..j + 1]) == s[..j] && Init(t[..i + 1]) == t[..i];
  }

  method FillRow(s: string, t: string, j: nat, p: array<int>, d: array<int>)
    requires j < |s| && p != d && p.Length == d.Length == |t| + 1 && RowOf(p[..], s[..j], t, |t| + 1)
    modifies d
    ensures RowOf(d[..], s[..j + 1], t, |t| + 1)
  {
    d[0] := j + 1;
    ghost var above := p[..];
    FirstCell(s, t, j, d[..]);
    hide RowOf;
    for i := 1 to |t| + 1
      invariant p[..] == above && RowOf(d[..], s[..j + 1], t, i)
    {
      var cost := if s[j] == t[i - 1] then 0 else 1;
      var least := p[i] + 1;
      if d[i - 1] + 1 < least { least := d[i - 1] + 1; }
      if p[i - 1] + cost < least { least := p[i - 1] + cost; }
      NextCell(s, t, j, i, p[..], d[..], least);
      ghost var before := d[..];
      d[i] := least;
      assert d[..] == before[i := least];
    }
  }

  lemma FirstCell(s: string, t: string, j: nat, row: seq<int>)
    requires j < |s| && |row| == |t| + 1 && row[0] == j + 1
    ensures RowOf(row, s[..j + 1], t, 1)
  {
    assert t[..0] == "" && |s[..j + 1]| == j + 1;
  }

  lemma NextCell(s: string, t: string, j: nat, i: nat, p: seq<int>, d: seq<int>, least: int)
    requires j < |s| && 1 <= i <= |t| && RowOf(p, s[..j], t, |t| + 1) && RowOf(d, s[..j + 1], t, i)
    requires var cost := if s[j] == t[i - 1] then 0 else 1;
      && least <= p[i] + 1 && least <= d[i - 1] + 1 && least <= p[i - 1] + cost
      && (least == p[i] + 1 || least == d[i - 1] + 1 || least == p[i - 1] + cost)
    ensures RowOf(d[i := least], s[..j + 1], t, i + 1)
  {
    hide Distance;
    Cell(s, t, j, i - 1);
    assert p[i] == Distance(s[..j], t[..i]) && p[i - 1] == Distance(s[..j], t[..i - 1]) && d[i - 1] == Distance(s[..j + 1], t[..i - 1]);
  }

  /** `calculate_levenshtein_distance` */
  method Levenshtein(s: string, t: string) returns (r: int)
    ensures r == Distance(s, t)
  {
    var p, d := new int[|t| + 1], new int[|t| + 1];
    for i := 0 to |t| + 1
      invariant forall k :: 0 <= k < i ==> p[k] == k
    {
      p[i] := i;
    }
    assert s[..0] == "";
    assert RowOf(p[..], s[..0], t, |t| + 1);
    for j := 0 to |s|
      invariant fresh(p) && fresh(d) && p != d && p.Length == d.Length == |t| + 1
      invariant RowOf(p[..], s[..j], t, |t| + 1)
    {
      FillRow(s, t, j, p, d);
      p, d := d, p;
    }
    assert s[..|s|] == s && t[..|t|] == t;
    r := p[|t|];
  }

  // ---- The distance is a metric ----

  lemma {:induction false} Symmetric(s: string, t: string)
    ensures Distance(s, t) == Distance(t, s)
    decreases |s| + |t|
  {
    if s != "" && t != "" {
      Symmetric(Init(s), t);
      Symmetric(s, Init(t));
      Symmetric(Init(s), Init(t));
    }
  }

  lemma {:induction false} ZeroIffEqual(s: string, t: string)
    ensures Distance(s, t) == 0 <==> s == t
    decreases |s| + |t|
  {
    if s != "" && t != "" {
      ZeroIffEqual(Init(s), Init(t));
      assert s == Init(s) + [Last(s)] && t == Init(t) + [Last(t)];
    }
  }

  lemma {:induction false} LengthBound(s: string, t: string)
    ensures |s| <= Distance(s, t) + |t| && |t| <= Distance(s, t) + |s|
    decreases |s| + |t|
  {
    if s != "" && t != "" {
      LengthBound(Init(s), t);
      LengthBound(s, Init(t));
      LengthBound(Init(s), Init(t));
    }
  }

  lemma {:induction false} Triangle(s: string, t: string, u: string)
    ensures Distance(s, u) <= Distance(s, t) + Distance(t, u)
    decreases |s| + |t| + |u|
  {
    if s == "" || t == "" || u == "" {
      LengthBound(s, t);
      LengthBound(t, u);
      if s != "" && u != "" { Upper(s, u); }
    } else {
      Triangle(Init(s), t, u);
      Triangle(s, t, Init(u));
      Triangle(s, Init(t), u);
      Triangle(s, Init(t), Init(u));
      Triangle(Init(s), Init(t), u);
      Triangle(Init(s), Init(t), Init(u));
    }
  }

  /** Delete everything and insert everything. */
  lemma {:induction false} Upper(s: string, t: string)
    ensures Distance(s, t) <= |s| + |t|
    decreases |s| + |t|
  {
    if s != "" && t != "" { Upper(Init(s), t); }
  }

  // ---- The distance counts edits ----

  /** One character inserted, deleted or replaced. */
  predicate OneEdit(s: string, t: string) {
    || (exists k :: 0 <= k < |t| && s == t[..k] + t[k + 1..])
    || (exists k :: 0 <= k < |s| && t == s[..k] + s[k + 1..])
    || (|s| == |t| && exists k :: 0 <= k < |s| && t == s[k := t[k]])
  }

  ghost predicate EditsIn(n: nat, s: string, t: string) {
    if n == 0 then s == t else exists u :: OneEdit(s, u) && EditsIn(n - 1, u, t)
  }

  /** A common last character does not matter. */
  lemma CommonLast(s: string, t: string)
    requires s != "" && t != "" && Last(s) == Last(t)
    ensures Distance(s, t) <= Distance(Init(s), Init(t))
  {
  }

  lemma {:induction false} DropOne(s: string, k: nat)
    requires k < |s|
    ensures Distance(s, s[..k] + s[k + 1..]) <= 1 && Distance(s[..k] + s[k + 1..], s) <= 1
  {
    var t := s[..k] + s[k + 1..];
    Symmetric(s, t);
    if k == |s| - 1 {
      assert t == Init(s);
      ZeroIffEqual(t, t);
    } else {
      DropOne(Init(s), k);
      assert Init(t) == Init(s)[..k] + Init(s)[k + 1..] && Last(t) == Last(s);
      CommonLast(s, t);
    }
  }

  lemma {:induction false} ReplaceOne(s: string, k: nat, c: char)
    requires k < |s|
    ensures Distance(s, s[k := c]) <= 1
  {
    var t := s[k := c];
    if k == |s| - 1 {
      assert Init(t) == Init(s);
      ZeroIffEqual(Init(s), Init(s));
    } else {
      ReplaceOne(Init(s), k, c);
      assert Init(t) == Init(s)[k := c];
      CommonLast(s, t);
    }
  }

  lemma OneEditIsNear(s: string, t: string)
    requires OneEdit(s, t)
    ensures Distance(s, t) <= 1
  {
    hide Distance;
    if k :| 0 <= k < |t| && s == t[..k] + t[k + 1..] {
      DropOne(t, k);
    } else if k :| 0 <= k < |s| && t == s[..k] + s[k + 1..] {
      DropOne(s, k);
    } else {
      var k :| 0 <= k < |s| && t == s[k := t[k]];
      ReplaceOne(s, k, t[k]);
    }
  }

  /** No sequence of edits is shorter than the distance. */
  lemma {:induction false} DistanceIsLeast(n: nat, s: string, t: string)
    requires EditsIn(n, s, t)
    ensures Distance(s, t) <= n
  {
    hide Distance;
    if n == 0 {
      ZeroIffEqual(s, t);
    } else {
      var u :| OneEdit(s, u) && EditsIn(n - 1, u, t);
      OneEditIsNear(s, u);
      DistanceIsLeast(n - 1, u, t);
      Triangle(s, u, t);
    }
  }

  /** Edits can be made in front of a common last character. */
  lemma {:induction false} EditsBefore(n: nat, s: string, t: string, c: char)
    requires EditsIn(n, s, t)
    ensures EditsIn(n, s + [c], t + [c])
  {
    if n > 0 {
      var u :| OneEdit(s, u) && EditsIn(n - 1, u, t);
      EditsBefore(n - 1, u, t, c);
      OneEditBefore(s, u, c);
    }
  }

  lemma OneEditBefore(s: string, u: string, c: char)
    requires OneEdit(s, u)
    ensures OneEdit(s + [c], u + [c])
  {
    var s', u' := s + [c], u + [c];
    if k :| 0 <= k < |u| && s == u[..k] + u[k + 1..] {
      assert s' == u'[..k] + u'[k + 1..];
    } else if k :| 0 <= k < |s| && u == s[..k] + s[k + 1..] {
      assert u' == s'[..k] + s'[k + 1..];
    } else {
      var k :| 0 <= k < |s| && u == s[k := u[k]];
      assert u' == s'[k := u'[k]];
    }
  }

  lemma {:induction false} EditsThen(n: nat, s: string, t: string, u: string)
    requires EditsIn(n, s, t) && OneEdit(t, u)
    ensures EditsIn(n + 1, s, u)
  {
    if n == 0 {
      assert EditsIn(0, u, u);
    } else {
      var v :| OneEdit(s, v) && EditsIn(n - 1, v, t);
      EditsThen(n - 1, v, t, u);
    }
  }

  /** And the distance is reached by some sequence of edits. */
  lemma {:induction false} DistanceIsReached(s: string, t: string)
    ensures EditsIn(Distance(s, t), s, t)
    decreases |s| + |t|
  {
    if s == "" && t == "" {
    } else if s == "" || (t != "" && Distance(s, t) == Distance(s, Init(t)) + 1) {
      DistanceIsReached(s, Init(t));
      assert Init(t) == t[..|t| - 1] + t[|t|..];
      assert OneEdit(Init(t), t);
      EditsThen(Distance(s, Init(t)), s, Init(t), t);
    } else if t == "" || Distance(s, t) == Distance(Init(s), t) + 1 {
      DistanceIsReached(Init(s), t);
      assert Init(s) == s[..|s| - 1] + s[|s|..];
      assert OneEdit(s, Init(s));
    } else {
      DistanceIsReached(Init(s), Init(t));
      assert s == Init(s) + [Last(s)] && t == Init(t) + [Last(t)];
      EditsWithLast(Distance(Init(s), Init(t)), Init(s), Init(t), Last(s), Last(t));
    }
  }

  lemma EditsWithLast(n: nat, s: string, t: string, a: char, b: char)
    requires EditsIn(n, s, t)
    ensures EditsIn(n + Cost(a, b), s + [a], t + [b])
  {
    hide EditsIn, OneEdit;
    EditsBefore(n, s, t, a);
    if a != b {
      ReplaceLast(t, a, b);
      EditsThen(n, s + [a], t + [a], t + [b]);
    }
  }

  lemma ReplaceLast(x: string, a: char, b: char)
    ensures OneEdit(x + [a], x + [b])
  {
    assert x + [b] == (x + [a])[|x| := (x + [b])[|x|]];
  }

  /** The loop computes the least number of single-character edits. */
  lemma DistanceCountsEdits(s: string, t: string)
    ensures EditsIn(Distance(s, t), s, t)
    ensures forall n: nat :: EditsIn(n, s, t) ==> Distance(s, t) <= n
  {
    DistanceIsReached(s, t);
    forall n: nat | EditsIn(n, s, t) ensures Distance(s, t) <= n { DistanceIsLeast(n, s, t); }
  }
}
