/** The `$`-references of an expression text, as `ExpressionDescriptor` collects them. */
module ExpressionRefs {
  import opened Characters
  import opened RhsLexer

  function SpaceRun(s: string): (n: nat)
    ensures n <= |s| && (forall k :: 0 <= k < n ==> IsSpace(s[k])) && (n < |s| ==> !IsSpace(s[n]))
  {
    if s == "" || !IsSpace(s[0]) then 0 else 1 + SpaceRun(s[1..])
  }

  /** How far optional white space and the name after it reach, and the name. */
  function Reach(t: string): (n: nat)
    ensures n <= |t|
  {
    SpaceRun(t) + NameRun(t[SpaceRun(t)..])
  }

  function NameOf(t: string): string { t[SpaceRun(t)..Reach(t)] }

  lemma ReachChars(t: string)
    ensures forall k :: 0 <= k < Reach(t) ==> t[k] != '$'
    ensures forall k :: 0 <= k < |NameOf(t)| ==> NameOf(t)[k] != '.'
  {
    var b := SpaceRun(t);
    var rest := t[b..];
    forall k | 0 <= k < Reach(t) ensures t[k] != '$' {
      if k >= b { assert t[k] == rest[k - b]; }
    }
    assert NameOf(t) == rest[..NameRun(rest)];
  }

  /** The variable that a text beginning with `$` refers to, or nothing. */
  function BaseHere(t: string): string
    requires t != ""
  {
    if NameOf(t[1..]) == "" then "" else "$" + NameOf(t[1..])
  }

  function BaseAt(s: string, i: nat): string
    requires i < |s|
  {
    BaseHere(s[i..])
  }

  /** The fields read behind a name: a dot and a name, with white space in between, as often as they come. */
  function Fields(t: string): string
    decreases |t|
  {
    var b := SpaceRun(t);
    if b < |t| && t[b] == '.' && NameOf(t[b + 1..]) != "" then "." + NameOf(t[b + 1..]) + Fields(t[b + 1 + Reach(t[b + 1..])..])
    else ""
  }

  /** The whole reference of a text beginning with `$`, without white space, or nothing. */
  function RefHere(t: string): string
    requires t != ""
  {
    if NameOf(t[1..]) == "" then "" else "$" + NameOf(t[1..]) + Fields(t[1 + Reach(t[1..])..])
  }

  function RefAt(s: string, i: nat): string
    requires i < |s|
  {
    RefHere(s[i..])
  }

  lemma FieldsStart(t: string)
    ensures Fields(t) == "" || Fields(t)[0] == '.'
  {
  }

  lemma RefStarts(s: string, start: nat)
    requires start < |s|
    ensures var name, at := NameOf(s[start + 1..]), start + 1 + Reach(s[start + 1..]);
      && RefAt(s, start) == (if name == "" then "" else "$" + name + Fields(s[at..]))
      && BaseAt(s, start) == (if name == "" then "" else "$" + name)
  {
    hide NameOf, Reach, Fields;
    Cut(s, start, start + 1);
    Cut(s, start, start + 1 + Reach(s[start + 1..]));
  }

  lemma DollarName(t: string)
    ensures var name := "$" + NameOf(t); name[0] == '$' && forall k :: 0 <= k < |name| ==> name[k] != '.'
  {
    ReachChars(t);
    hide NameOf;
  }

  lemma RefBase(s: string, i: nat)
    requires i < |s|
    ensures Base(RefAt(s, i)) == BaseAt(s, i) && (RefAt(s, i) == "" <==> BaseAt(s, i) == "")
    ensures RefAt(s, i) != "" ==> RefAt(s, i)[0] == '$'
  {
    hide *;
    RefStarts(s, i);
    DollarName(s[i + 1..]);
    var name, tail := NameOf(s[i + 1..]), Fields(s[i + 1 + Reach(s[i + 1..])..]);
    FieldsStart(s[i + 1 + Reach(s[i + 1..])..]);
    BaseOf("$" + name, tail);
    BaseNone();
  }

  lemma BaseNone()
    ensures Base("") == ""
  {
  }

  // ---- What a written path is read as ----

  predicate IsWord(s: string) { s != "" && forall k :: 0 <= k < |s| ==> IsNameChar(s[k]) }

  function Dotted(fields: seq<string>): string { if fields == [] then "" else "." + fields[0] + Dotted(fields[1..]) }

  /** No name goes on here, and no field follows. */
  predicate PathEnds(rest: string) {
    (rest == "" || !IsNameChar(rest[0])) && (SpaceRun(rest) < |rest| ==> rest[SpaceRun(rest)] != '.')
  }

  lemma {:induction false} WordRun(s: string, rest: string)
    requires (forall k :: 0 <= k < |s| ==> IsNameChar(s[k])) && (rest == "" || !IsNameChar(rest[0]))
    ensures NameRun(s + rest) == |s|
  {
    if s == "" {
      assert s + rest == rest;
    } else {
      assert (s + rest)[1..] == s[1..] + rest;
      WordRun(s[1..], rest);
    }
  }

  lemma WordRead(s: string, rest: string)
    requires IsWord(s) && (rest == "" || !IsNameChar(rest[0]))
    ensures NameOf(s + rest) == s && Reach(s + rest) == |s| && (s + rest)[|s|..] == rest
  {
    var t := s + rest;
    WordRun(s, rest);
    assert t[0] == s[0] && !IsSpace(t[0]);
    assert SpaceRun(t) == 0 && t[0..] == t && t[..|s|] == s;
  }

  lemma NoSpace(t: string)
    requires t != "" && t[0] == '.'
    ensures SpaceRun(t) == 0
  {
  }

  lemma FieldsUnfold(t: string, rest: string)
    requires t != "" && t[0] == '.' && t[1..] == rest && NameOf(rest) != ""
    ensures Fields(t) == "." + NameOf(rest) + Fields(rest[Reach(rest)..])
  {
    hide *;
    NoSpace(t);
    assert t[1 + Reach(rest)..] == t[1..][Reach(rest)..];
    FieldsAt(t, rest, rest[Reach(rest)..]);
  }

  lemma FieldsAt(t: string, rest: string, more: string)
    requires SpaceRun(t) == 0 && t != "" && t[0] == '.' && t[1..] == rest && NameOf(rest) != "" && t[1 + Reach(rest)..] == more
    ensures Fields(t) == "." + NameOf(rest) + Fields(more)
  {
    hide NameOf, Reach, SpaceRun;
  }

  lemma FieldRead(f: string, more: string)
    requires IsWord(f) && (more == "" || !IsNameChar(more[0]))
    ensures Fields("." + f + more) == "." + f + Fields(more)
  {
    hide *;
    WordRead(f, more);
    WordNotEmpty(f);
    var t := "." + f + more;
    assert t[1..] == f + more && t[0] == '.';
    FieldsUnfold(t, f + more);
  }

  lemma NoFieldRead(rest: string)
    requires PathEnds(rest)
    ensures Fields(rest) == ""
  {
    hide NameOf, Reach, SpaceRun;
  }

  lemma {:induction false} DottedRead(fields: seq<string>, rest: string)
    requires (forall k :: 0 <= k < |fields| ==> IsWord(fields[k])) && PathEnds(rest)
    ensures Fields(Dotted(fields) + rest) == Dotted(fields)
    ensures Dotted(fields) + rest == "" || !IsNameChar((Dotted(fields) + rest)[0])
  {
    hide Fields, SpaceRun, IsWord;
    if fields == [] {
      NoFieldRead(rest);
      assert Dotted(fields) + rest == rest;
    } else {
      var f, more := fields[0], Dotted(fields[1..]) + rest;
      DottedRead(fields[1..], rest);
      FieldRead(f, more);
      assert Dotted(fields) + rest == "." + f + more;
    }
  }

  /** A path written without white space is read as it stands. */
  lemma PathRead(base: string, fields: seq<string>, rest: string)
    requires IsWord(base) && (forall k :: 0 <= k < |fields| ==> IsWord(fields[k])) && PathEnds(rest)
    ensures RefAt("$" + base + Dotted(fields) + rest, 0) == "$" + base + Dotted(fields)
  {
    hide *;
    DottedRead(fields, rest);
    var tail := Dotted(fields) + rest;
    WordRead(base, tail);
    WordNotEmpty(base);
    BehindDollar(base, Dotted(fields), rest);
    RefUnfold("$" + base + Dotted(fields) + rest, base + tail);
  }

  lemma BehindDollar(base: string, path: string, rest: string)
    ensures var s := "$" + base + path + rest; s != "" && s[1..] == base + (path + rest)
  {
    assert "$" + base + path + rest == "$" + (base + (path + rest));
  }

  /** White space is passed over behind the dollar sign, and around the dot of a field. */
  lemma SpacedRead(before: string, after: string, name: string, more: string)
    requires AllSpaces(before) && AllSpaces(after) && IsWord(name) && (more == "" || !IsNameChar(more[0]))
    ensures NameOf(after + (name + more)) == name
    ensures Fields(before + "." + after + name + more) == "." + name + Fields(more)
  {
    hide *;
    WordRead(name, more);
    WordNotEmpty(name);
    SpacesPassed(after, name + more);
    var behind := after + (name + more);
    SpacedText(before, after, name, more);
    SpacesPassed(before, "." + behind);
    NoSpace("." + behind);
    FieldsBehind(before + ("." + behind), |before|, behind, more);
  }

  lemma SpacedText(before: string, after: string, name: string, more: string)
    ensures var t := before + ("." + (after + (name + more)));
      before + "." + after + name + more == t && |before| < |t| && t[|before|] == '.' && t[|before| + 1..] == after + (name + more)
  {
    var behind := after + (name + more);
    assert before + "." + after + name + more == before + "." + behind == before + ("." + behind);
  }

  predicate AllSpaces(s: string) { forall k :: 0 <= k < |s| ==> IsSpace(s[k]) }

  lemma {:induction false} SpacesPassed(sp: string, t: string)
    requires AllSpaces(sp)
    ensures SpaceRun(sp + t) == |sp| + SpaceRun(t)
    ensures NameOf(sp + t) == NameOf(t) && Reach(sp + t) == |sp| + Reach(t) && (sp + t)[Reach(sp + t)..] == t[Reach(t)..]
  {
    SpacesRun(sp, t);
    hide NameRun, SpaceRun, IsSpace;
    Behind(sp, t, SpaceRun(t), Reach(t));
  }

  lemma Behind(sp: string, t: string, b: nat, n: nat)
    requires b <= n <= |t|
    ensures (sp + t)[|sp| + b..] == t[b..] && (sp + t)[|sp| + n..] == t[n..] && (sp + t)[|sp| + b..|sp| + n] == t[b..n]
  {
  }

  lemma {:induction false} SpacesRun(sp: string, t: string)
    requires AllSpaces(sp)
    ensures SpaceRun(sp + t) == |sp| + SpaceRun(t)
    decreases |sp|
  {
    if sp == "" {
      assert sp + t == t;
    } else {
      assert (sp + t)[1..] == sp[1..] + t;
      SpacesRun(sp[1..], t);
    }
  }

  lemma FieldsBehind(t: string, b: nat, rest: string, more: string)
    requires SpaceRun(t) == b < |t| && t[b] == '.' && t[b + 1..] == rest && NameOf(rest) != "" && rest[Reach(rest)..] == more
    ensures Fields(t) == "." + NameOf(rest) + Fields(more)
  {
    hide NameOf, Reach, SpaceRun;
    assert t[b + 1 + Reach(rest)..] == t[b + 1..][Reach(rest)..];
  }

  lemma WordNotEmpty(s: string)
    requires IsWord(s)
    ensures s != ""
  {
  }

  lemma RefUnfold(s: string, rest: string)
    requires s != "" && s[1..] == rest && NameOf(rest) != ""
    ensures RefAt(s, 0) == "$" + NameOf(rest) + Fields(rest[Reach(rest)..])
  {
    hide NameOf, Reach, Fields;
    assert s[0..] == s;
    assert s[1 + Reach(rest)..] == s[1..][Reach(rest)..];
  }

  /** Every reference in the text is to an available variable. */
  ghost predicate RefsOk(s: string, available: set<string>) {
    forall i :: 0 <= i < |s| && s[i] == '$' && BaseAt(s, i) != "" ==> BaseAt(s, i) in available
  }

  /** The part of a reference before its first dot. */
  function Base(ref: string): string {
    if ref == "" || ref[0] == '.' then "" else [ref[0]] + Base(ref[1..])
  }

  lemma {:induction false} BaseOf(name: string, tail: string)
    requires forall k :: 0 <= k < |name| ==> name[k] != '.'
    requires tail == "" || tail[0] == '.'
    ensures Base(name + tail) == name
  {
    if name == "" {
      assert name + tail == tail;
    } else {
      assert (name + tail)[1..] == name[1..] + tail;
      BaseOf(name[1..], tail);
    }
  }

  method SpaceEnd(s: string, i: nat) returns (e: nat)
    requires i <= |s|
    ensures i <= e <= |s| && e == i + SpaceRun(s[i..])
  {
    e := i;
    while e < |s| && IsSpace(s[e])
      invariant i <= e <= |s| && i + SpaceRun(s[i..]) == e + SpaceRun(s[e..])
    {
      Cut(s, e, e + 1);
      e := e + 1;
    }
  }

  /** White space and a name. */
  method NextSegment(s: string, i: nat) returns (name: string, end: nat)
    requires i <= |s|
    ensures i <= end <= |s| && name == NameOf(s[i..]) && end == i + Reach(s[i..])
    ensures forall k :: i <= k < end ==> s[k] != '$'
    ensures forall k :: 0 <= k < |name| ==> name[k] != '.'
  {
    hide NameRun, SpaceRun;
    var b := SpaceEnd(s, i);
    end := NameEnd(s, b);
    name := s[b..end];
    Cut(s, i, b);
    SegmentIs(s, i, b, end);
  }

  lemma SegmentIs(s: string, i: nat, b: nat, e: nat)
    requires i <= b <= e <= |s| && b == i + SpaceRun(s[i..]) && e == b + NameRun(s[b..])
    ensures s[b..e] == NameOf(s[i..]) && e == i + Reach(s[i..])
    ensures forall k :: i <= k < e ==> s[k] != '$'
    ensures forall k :: 0 <= k < e - b ==> s[b..e][k] != '.'
  {
    hide NameRun, SpaceRun;
    var t := s[i..];
    ReachChars(t);
    Cut(s, i, b);
    assert s[b..e] == t[b - i..e - i];
    forall k | i <= k < e ensures s[k] != '$' { assert s[k] == t[k - i]; }
  }

  /** `extract_variable_name`: the reference and where it ends. */
  method ExtractVariableName(s: string, start: nat) returns (name: string, end: nat)
    requires start < |s| && s[start] == '$'
    ensures start < end <= |s| && (forall k :: start < k < end ==> s[k] != '$')
    ensures name == RefAt(s, start)
  {
    hide NameOf, Reach, Fields, SpaceRun, RefAt;
    var first, at := NextSegment(s, start + 1);
    RefStarts(s, start);
    if first == "" { return "", start + 1; }
    name, end := "$" + first, at;
    var more := true;
    while more
      invariant start < end <= |s| && (forall k :: start < k < end ==> s[k] != '$')
      invariant RefAt(s, start) == name + (if more then Fields(s[end..]) else "")
      decreases |s| - end, more
    {
      var field, stop;
      more, field, stop := ReadField(s, end);
      if more {
        Longer(name, field, Fields(s[stop..]));
        name, end := name + "." + field, stop;
      }
    }
    assert name + "" == name;
  }

  lemma Longer(name: string, field: string, rest: string)
    ensures name + ("." + field + rest) == name + "." + field + rest && name + "" == name
  {
  }

  /** A dot and a name, with white space in between. */
  method ReadField(s: string, end: nat) returns (found: bool, field: string, stop: nat)
    requires end <= |s|
    ensures if found then end < stop <= |s| && Fields(s[end..]) == "." + field + Fields(s[stop..]) else Fields(s[end..]) == ""
    ensures found ==> forall k :: end <= k < stop ==> s[k] != '$'
  {
    hide NameOf, Reach, Fields, SpaceRun;
    var dot := SpaceEnd(s, end);
    NoDollar(s, end, dot);
    NoFieldHere(s, end, dot);
    if dot >= |s| || s[dot] != '.' { return false, "", end; }
    field, stop := NextSegment(s, dot + 1);
    if field == "" { return false, "", end; }
    OneField(s, end, dot, field, stop);
    found := true;
  }

  lemma NoFieldHere(s: string, end: nat, dot: nat)
    requires end <= dot <= |s| && dot == end + SpaceRun(s[end..])
    ensures dot == |s| || s[dot] != '.' || NameOf(s[dot + 1..]) == "" ==> Fields(s[end..]) == ""
  {
    hide NameOf, Reach, SpaceRun;
    if dot < |s| {
      Cut(s, end, dot + 1);
      assert s[end..][dot - end] == s[dot];
    }
  }

  lemma OneField(s: string, end: nat, dot: nat, more: string, stop: nat)
    requires end <= dot < |s| && dot == end + SpaceRun(s[end..]) && s[dot] == '.'
    requires more == NameOf(s[dot + 1..]) != "" && stop == dot + 1 + Reach(s[dot + 1..])
    ensures stop <= |s| && Fields(s[end..]) == "." + more + Fields(s[stop..])
  {
    hide NameOf, Reach, SpaceRun;
    Cut(s, end, dot + 1);
    Cut(s, end, stop);
    assert s[end..][dot - end] == '.';
  }

  lemma NoDollar(s: string, i: nat, e: nat)
    requires i <= e <= |s| && e == i + SpaceRun(s[i..])
    ensures forall k :: i <= k < e ==> s[k] != '$'
  {
    forall k | i <= k < e ensures s[k] != '$' { assert s[k] == s[i..][k - i]; }
  }

  /** Every reference before position `k` is among the collected names, with its fields. */
  ghost predicate Collected(s: string, k: nat, vars: seq<string>) {
    forall i :: 0 <= i < k && i < |s| && s[i] == '$' && RefAt(s, i) != "" ==> RefAt(s, i) in vars
  }

  /** Every collected name is a reference of the text, and none is collected twice. */
  ghost predicate Genuine(s: string, vars: seq<string>) {
    (forall v :: v in vars ==> Stands(s, v)) && forall i, j :: 0 <= i < j < |vars| ==> vars[i] != vars[j]
  }

  ghost predicate Stands(s: string, v: string) { exists i :: 0 <= i < |s| && s[i] == '$' && RefAt(s, i) != "" && RefAt(s, i) == v }

  lemma CollectedNone(s: string)
    ensures Collected(s, 0, []) && Genuine(s, [])
  {
  }

  /** `ExpressionDescriptor::compile`: references are replaced one by one in a working copy, and
      each name is recorded once.  An empty expression does not compile. */
  method Compile(expr: string) returns (ok: bool, vars: seq<string>)
    ensures ok <==> expr != ""
    ensures ok ==> Collected(expr, |expr|, vars) && Genuine(expr, vars)
  {
    hide RefHere, Genuine, Collected;
    vars := [];
    if expr == "" { return false, vars; }
    CollectedNone(expr);
    var processed, pos: nat := expr, 0;
    ghost var at: nat := 0;                 // the position in `expr` that `pos` stands for
    while pos < |processed|
      invariant pos <= |processed| && at <= |expr| && processed[pos..] == expr[at..]
      invariant Collected(expr, at, vars) && Genuine(expr, vars)
      decreases |expr| - at
    {
      SameAt(processed, pos, expr, at);
      if processed[pos] != '$' {
        CollectedNext(expr, at, vars);
        pos, at := pos + 1, at + 1;
      } else {
        var orig, end := ExtractVariableName(processed, pos);
        if orig == "" {
          CollectedNext(expr, at, vars);
          pos, at := pos + 1, at + 1;
        } else {
          ghost var before := vars;
          if orig !in vars { vars := vars + [orig]; }
          GenuineMore(expr, before, vars, orig, at);
          assert at + (end - pos) <= |expr| by { assert |processed[pos..]| == |expr[at..]|; }
          CollectedMore(expr, at, at + (end - pos), before, vars, orig, processed, pos, end);
          var sanitized := Sanitize(orig);
          Cut(processed, pos, end);
          Cut(expr, at, at + (end - pos));
          at := at + (end - pos);
          processed := Replaced(processed, pos, end, sanitized);
          pos := pos + |sanitized|;
        }
      }
    }
    return true, vars;
  }

  function Replaced(s: string, i: nat, j: nat, name: string): (r: string)
    requires i <= j <= |s|
    ensures i + |name| <= |r| && r[i + |name|..] == s[j..]
  {
    s[..i] + name + s[j..]
  }

  function Sanitize(name: string): (r: string)
    ensures |r| == |name|
  {
    seq(|name|, i requires 0 <= i < |name| => if name[i] == '.' || (i == 0 && name[i] == '$') then '_' else name[i])
  }

  lemma SameAt(p: string, pos: nat, s: string, at: nat)
    requires pos < |p| && at <= |s| && p[pos..] == s[at..]
    ensures at < |s| && p[pos] == s[at] && p[pos + 1..] == s[at + 1..]
  {
    assert p[pos..][0] == s[at..][0];
    assert p[pos..][1..] == s[at..][1..];
  }

  lemma CollectedNext(s: string, at: nat, vars: seq<string>)
    requires at < |s| && Collected(s, at, vars) && (s[at] == '$' ==> RefAt(s, at) == "")
    ensures Collected(s, at + 1, vars)
  {
    hide RefAt;
  }

  lemma CollectedMore(s: string, at: nat, to: nat, before: seq<string>, vars: seq<string>, orig: string, p: string, pos: nat, end: nat)
    requires Collected(s, at, before) && at < to <= |s| && to - at == end - pos && pos < end <= |p| && p[pos..] == s[at..]
    requires forall k :: pos < k < end ==> p[k] != '$'
    requires orig in vars && orig == RefAt(s, at) && forall v :: v in before ==> v in vars
    ensures Collected(s, to, vars)
  {
    hide RefAt;
    forall i | at < i < to ensures s[i] != '$' { assert s[i] == s[at..][i - at] == p[pos..][i - at] == p[pos + (i - at)]; }
  }

  lemma GenuineMore(s: string, before: seq<string>, vars: seq<string>, orig: string, at: nat)
    requires Genuine(s, before) && vars == (if orig in before then before else before + [orig])
    requires at < |s| && s[at] == '$' && RefAt(s, at) != "" && orig == RefAt(s, at)
    ensures Genuine(s, vars)
  {
    hide RefAt;
    assert Stands(s, orig);
  }

  /** A text whose references are all available has only available names collected. */
  lemma GenuineAvailable(s: string, vars: seq<string>, available: set<string>)
    requires Genuine(s, vars) && RefsOk(s, available)
    ensures forall v :: v in vars ==> v != "" && v[0] == '$' && Base(v) in available
  {
    hide RefAt, BaseAt;
    forall v | v in vars ensures v != "" && v[0] == '$' && Base(v) in available {
      assert Stands(s, v);
      var i :| 0 <= i < |s| && s[i] == '$' && RefAt(s, i) != "" && RefAt(s, i) == v;
      RefBase(s, i);
    }
  }

  lemma GenuineDollar(s: string, vars: seq<string>)
    requires Genuine(s, vars)
    ensures forall v :: v in vars ==> v != "" && v[0] == '$'
  {
    hide RefAt, BaseAt;
    forall v | v in vars ensures v != "" && v[0] == '$' {
      assert Stands(s, v);
      var i :| 0 <= i < |s| && s[i] == '$' && RefAt(s, i) != "" && RefAt(s, i) == v;
      RefBase(s, i);
    }
  }

  /** When every collected name has an available base, so has every reference of the text. */
  lemma CollectedRefsOk(s: string, vars: seq<string>, available: set<string>)
    requires Collected(s, |s|, vars) && forall v :: v in vars ==> Base(v) in available
    ensures RefsOk(s, available)
  {
    hide RefAt, BaseAt;
    forall i | 0 <= i < |s| && s[i] == '$' && BaseAt(s, i) != "" ensures BaseAt(s, i) in available { RefBase(s, i); }
  }
}
