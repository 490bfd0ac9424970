/** Constraint cells of decision tables: quote- and parenthesis-aware splitting and parsing. */
module ConstraintText {
  import opened Wrappers
  import opened Characters

  // ---- Trimming ----

  predicate Trimmed(s: string) { s != "" ==> !IsSpace(s[0]) && !IsSpace(s[|s| - 1]) }

  predicate AllSpace(s: string) { forall i :: 0 <= i < |s| ==> IsSpace(s[i]) }

  function TrimFront(s: string): (r: string)
    ensures |r| <= |s| && (r != "" ==> !IsSpace(r[0]))
  {
    if s != "" && IsSpace(s[0]) then TrimFront(s[1..]) else s
  }

  function TrimBack(s: string): (r: string)
    ensures |r| <= |s| && (r != "" ==> !IsSpace(r[|r| - 1])) && r <= s
  {
    if s != "" && IsSpace(s[|s| - 1]) then TrimBack(s[..|s| - 1]) else s
  }

  function Trim(s: string): (r: string)
    ensures |r| <= |s| && Trimmed(r)
  {
    TrimBack(TrimFront(s))
  }

  /** `trim` */
  method TrimText(text: string) returns (s: string)
    ensures s == Trim(text)
  {
    s := text;
    while s != "" && IsSpace(s[0])
      invariant TrimFront(text) == TrimFront(s)
      decreases |s|
    {
      s := s[1..];
    }
    ghost var front := s;
    while s != "" && IsSpace(s[|s| - 1])
      invariant TrimBack(front) == TrimBack(s)
      decreases |s|
    {
      s := s[..|s| - 1];
    }
  }

  lemma TrimId(s: string)
    requires Trimmed(s)
    ensures Trim(s) == s
  {
  }

  lemma {:induction false} TrimFrontPad(pad: string, s: string)
    requires AllSpace(pad) && (s != "" ==> !IsSpace(s[0]))
    ensures TrimFront(pad + s) == s
  {
    if pad == "" {
      assert pad + s == s;
    } else {
      assert (pad + s)[1..] == pad[1..] + s;
      TrimFrontPad(pad[1..], s);
    }
  }

  lemma {:induction false} TrimBackPad(s: string, pad: string)
    requires AllSpace(pad) && s != "" && !IsSpace(s[|s| - 1])
    ensures TrimBack(s + pad) == s
  {
    if pad == "" {
      assert s + pad == s;
    } else {
      assert (s + pad)[..|s + pad| - 1] == s + pad[..|pad| - 1];
      TrimBackPad(s, pad[..|pad| - 1]);
    }
  }

  /** White space around a trimmed text is what trimming removes. */
  lemma TrimPad(left: string, s: string, right: string)
    requires AllSpace(left) && AllSpace(right) && s != "" && Trimmed(s)
    ensures Trim(left + s + right) == s
  {
    assert left + s + right == left + (s + right);
    TrimFrontPad(left, s + right);
    TrimBackPad(s, right);
  }

  // ---- Scanning quotes and parentheses ----

  datatype Scan = Scan(depth: nat, single: bool, double: bool)

  const TOP := Scan(0, false, false)

  predicate Quoted(st: Scan) { st.single || st.double }

  /** One character; a closing parenthesis at depth zero is ignored. */
  function Step(st: Scan, c: char): Scan {
    if c == '"' && !st.single then st.(double := !st.double)
    else if c == '\'' && !st.double then st.(single := !st.single)
    else if Quoted(st) then st
    else if c == '(' then st.(depth := st.depth + 1)
    else if c == ')' then (if st.depth == 0 then st else st.(depth := st.depth - 1))
    else st
  }

  /** A closing parenthesis that closes nothing. */
  predicate Stray(st: Scan, c: char) { c == ')' && !Quoted(st) && st.depth == 0 }

  /** The state after a text, or none if some parenthesis closes nothing. */
  function Walk(st: Scan, s: string): Option<Scan>
    decreases |s|
  {
    if s == "" then Some(st)
    else if Stray(st, s[0]) then None
    else Walk(Step(st, s[0]), s[1..])
  }

  /** Parentheses match and quotes are closed. */
  predicate Balanced(s: string) { Walk(TOP, s) == Some(TOP) }

  lemma {:induction false} WalkConcat(st: Scan, a: string, b: string)
    ensures Walk(st, a + b) == match Walk(st, a) { case None => None case Some(m) => Walk(m, b) }
    decreases |a|
  {
    if a == "" {
      assert a + b == b;
    } else {
      assert (a + b)[1..] == a[1..] + b;
      if !Stray(st, a[0]) { WalkConcat(Step(st, a[0]), a[1..], b); }
    }
  }

  function Deeper(st: Scan): Scan { st.(depth := st.depth + 1) }

  /** Inside one more pair of parentheses the same text walks the same way. */
  lemma {:induction false} WalkDeeper(st: Scan, s: string)
    requires Walk(st, s).Some?
    ensures Walk(Deeper(st), s) == Some(Deeper(Walk(st, s).value))
    decreases |s|
  {
    if s != "" {
      assert Step(Deeper(st), s[0]) == Deeper(Step(st, s[0]));
      WalkDeeper(Step(st, s[0]), s[1..]);
    }
  }

  function Parens(s: string): string { "(" + s + ")" }

  lemma ParensBalanced(s: string)
    requires Balanced(s)
    ensures Balanced(Parens(s))
  {
    WalkDeeper(TOP, s);
    WalkConcat(Deeper(TOP), s, ")");
    assert Parens(s)[0] == '(' && Parens(s)[1..] == s + ")";
    assert Walk(Deeper(TOP), ")") == Walk(TOP, "");
  }

  lemma {:induction false} SpacesWalk(st: Scan, pad: string)
    requires AllSpace(pad)
    ensures Walk(st, pad) == Some(st)
  {
    if pad != "" { SpacesWalk(st, pad[1..]); }
  }

  lemma {:induction false} TrimFrontSplits(s: string)
    ensures exists pad :: AllSpace(pad) && s == pad + TrimFront(s)
  {
    if s != "" && IsSpace(s[0]) {
      TrimFrontSplits(s[1..]);
      var pad :| AllSpace(pad) && s[1..] == pad + TrimFront(s[1..]);
      assert s == ([s[0]] + pad) + TrimFront(s);
    } else {
      assert AllSpace("") && s == "" + TrimFront(s);
    }
  }

  lemma {:induction false} TrimBackSplits(s: string)
    ensures exists pad :: AllSpace(pad) && s == TrimBack(s) + pad
  {
    if s != "" && IsSpace(s[|s| - 1]) {
      TrimBackSplits(s[..|s| - 1]);
      var pad :| AllSpace(pad) && s[..|s| - 1] == TrimBack(s[..|s| - 1]) + pad;
      assert s == TrimBack(s) + (pad + [s[|s| - 1]]);
    } else {
      assert AllSpace("") && s == TrimBack(s) + "";
    }
  }

  /** Trimming does not change what a text does to quotes and parentheses. */
  lemma TrimWalk(st: Scan, s: string)
    ensures Walk(st, Trim(s)) == Walk(st, s)
  {
    TrimFrontSplits(s);
    var left :| AllSpace(left) && s == left + TrimFront(s);
    TrimBackSplits(TrimFront(s));
    var right :| AllSpace(right) && TrimFront(s) == Trim(s) + right;
    SpacesWalk(st, left);
    WalkConcat(st, left, TrimFront(s));
    WalkConcat(st, Trim(s), right);
    if Walk(st, Trim(s)).Some? { SpacesWalk(Walk(st, Trim(s)).value, right); }
  }

  // ---- Outer parentheses ----

  /** The scan inside `fully_wrapped`, from position `i`. */
  function WrappedFrom(v: string, i: nat, st: Scan): bool
    requires i <= |v|
    decreases |v| - i
  {
    if i == |v| then st.depth == 0
    else
      var st' := Step(st, v[i]);
      if st'.single != st.single || st'.double != st.double || Quoted(st) then WrappedFrom(v, i + 1, st')
      else if Stray(st, v[i]) || (st'.depth == 0 && i != |v| - 1) then false
      else WrappedFrom(v, i + 1, st')
  }

  /** `fully_wrapped` */
  predicate FullyWrapped(v: string) {
    |v| >= 2 && v[0] == '(' && v[|v| - 1] == ')' && WrappedFrom(v, 0, TOP)
  }

  lemma {:induction false} WrappedRest(v: string, i: nat, st: Scan)
    requires i < |v| && v[|v| - 1] == ')'
    ensures WrappedFrom(v, i, Deeper(st)) <==> Walk(st, v[i..|v| - 1]) == Some(TOP)
    decreases |v| - i
  {
    var rest := v[i..|v| - 1];
    if i == |v| - 1 {
      assert rest == "";
    } else {
      assert rest[0] == v[i] && rest[1..] == v[i + 1..|v| - 1];
      if !Stray(st, v[i]) {
        assert Step(Deeper(st), v[i]) == Deeper(Step(st, v[i]));
        WrappedRest(v, i + 1, Step(st, v[i]));
      }
    }
  }

  /** A text is fully wrapped exactly if it is a balanced text in one pair of parentheses. */
  lemma WrappedMeaning(v: string)
    ensures FullyWrapped(v) <==> exists inner :: v == Parens(inner) && Balanced(inner)
  {
    if inner :| v == Parens(inner) && Balanced(inner) {
      assert v[1..|v| - 1] == inner && v[0] == '(' && v[|v| - 1] == ')';
    }
    if |v| >= 2 && v[0] == '(' && v[|v| - 1] == ')' {
      var inner := v[1..|v| - 1];
      assert v == Parens(inner);
      WrappedRest(v, 1, TOP);
      assert WrappedFrom(v, 0, TOP) == WrappedFrom(v, 1, Deeper(TOP));
      assert FullyWrapped(v) <==> Balanced(inner);
    }
  }

  /** `strip_outer_parens` */
  function Strip(s: string): (r: string)
    ensures |r| <= |s|
    decreases |s|
  {
    var t := Trim(s);
    if FullyWrapped(t) then Strip(t[1..|t| - 1]) else t
  }

  method ScanWrapped(v: string) returns (b: bool)
    ensures b == FullyWrapped(v)
  {
    if |v| < 2 || v[0] != '(' || v[|v| - 1] != ')' { return false; }
    var depth, single, double := 0, false, false;
    for i := 0 to |v|
      invariant depth >= 0 && WrappedFrom(v, 0, TOP) == WrappedFrom(v, i, Scan(depth, single, double))
    {
      var c := v[i];
      if c == '"' && !single { double := !double; continue; }
      if c == '\'' && !double { single := !single; continue; }
      if single || double { continue; }
      if c == '(' { depth := depth + 1; } else if c == ')' { depth := depth - 1; }
      if depth == 0 && i != |v| - 1 { return false; }
      if depth < 0 { return false; }
    }
    return depth == 0;
  }

  lemma TrimTwice(s: string)
    ensures Trim(Trim(s)) == Trim(s) && |Trim(s)| <= |s|
  {
    TrimId(Trim(s));
  }

  lemma WrappedSize(s: string)
    requires FullyWrapped(s)
    ensures |s| >= 2
  {
  }

  method StripOuterParens(text: string) returns (s: string)
    ensures s == Strip(text)
  {
    hide FullyWrapped, Trim, Trimmed;
    s := TrimText(text);
    TrimTwice(text);
    var wrapped := ScanWrapped(s);
    while wrapped
      invariant wrapped == FullyWrapped(s) && Trim(s) == s && Strip(text) == Strip(s)
      decreases |s|
    {
      WrappedSize(s);
      ghost var inner := s[1..|s| - 1];
      s := TrimText(s[1..|s| - 1]);
      TrimTwice(inner);
      wrapped := ScanWrapped(s);
    }
  }

  // ---- Splitting ----

  datatype Separator = Comma | Keyword(word: string)

  function Lower(c: char): char { if 'A' <= c <= 'Z' then c - 'A' + 'a' else c }

  predicate IsBoundary(c: char) { IsSpace(c) || c == '(' || c == ')' }

  function CharAt(s: string, i: int): char { if 0 <= i < |s| then s[i] else ' ' }

  /** The keyword stands at `i` as a word of its own, in any case. */
  predicate WordAt(body: string, i: nat, word: string) {
    && i + |word| <= |body| && (forall k :: 0 <= k < |word| ==> Lower(body[i + k]) == Lower(word[k]))
    && IsBoundary(CharAt(body, i - 1)) && IsBoundary(CharAt(body, i + |word|))
  }

  /** The length of the separator at `i`, or zero. */
  function SepAt(sep: Separator, body: string, i: nat): (n: nat)
    requires i < |body|
    ensures i + n <= |body|
  {
    match sep
    case Comma => if body[i] == ',' then 1 else 0
    case Keyword(word) => if WordAt(body, i, word) then |word| else 0
  }

  predicate IsMark(c: char) { c == '"' || c == '\'' || c == '(' || c == ')' }

  /** Separators that do not look like quotes or parentheses. */
  predicate PlainSeparator(sep: Separator) {
    sep.Keyword? ==> sep.word != "" && forall k :: 0 <= k < |sep.word| ==> 'a' <= sep.word[k] <= 'z'
  }

  function Flush(current: string): seq<string> { if Trim(current) == "" then [] else [Trim(current)] }

  /** `split_top_level_logical` and `split_top_level_comma` from position `i` on. */
  function SplitFrom(sep: Separator, body: string, i: nat, st: Scan, current: string): seq<string>
    requires i <= |body|
    decreases |body| - i
  {
    if i == |body| then Flush(current)
    else if st == TOP && !IsMark(body[i]) && SepAt(sep, body, i) > 0 then
      Flush(current) + SplitFrom(sep, body, i + SepAt(sep, body, i), st, "")
    else SplitFrom(sep, body, i + 1, Step(st, body[i]), current + [body[i]])
  }

  function Split(sep: Separator, body: string): seq<string> { SplitFrom(sep, body, 0, TOP, "") }

  method SplitTopLevelLogical(body: string, word: string) returns (out: seq<string>)
    requires word != ""
    ensures out == Split(Keyword(word), body)
  {
    out := [];
    var current, depth, single, double := "", 0, false, false;
    var i := 0;
    while i < |body|
      invariant i <= |body| && depth >= 0
      invariant Split(Keyword(word), body) == out + SplitFrom(Keyword(word), body, i, Scan(depth, single, double), current)
    {
      hide Trim, WordAt;
      var c := body[i];
      if c == '"' && !single {
        double := !double;
      } else if c == '\'' && !double {
        single := !single;
      } else if !single && !double {
        if c == '(' {
          depth := depth + 1;
        } else if c == ')' {
          depth := if depth - 1 > 0 then depth - 1 else 0;
        } else if depth == 0 && WordAt(body, i, word) {
          out := out + Flush(current);
          current := "";
          i := i + |word|;
          continue;
        }
      }
      current := current + [c];
      i := i + 1;
    }
    out := out + Flush(current);
  }

  method SplitTopLevelComma(body: string) returns (out: seq<string>)
    ensures out == Split(Comma, body)
  {
    out := [];
    var current, depth, single, double := "", 0, false, false;
    for i := 0 to |body|
      invariant depth >= 0
      invariant Split(Comma, body) == out + SplitFrom(Comma, body, i, Scan(depth, single, double), current)
    {
      hide Trim;
      var c := body[i];
      if c == '"' && !single {
        double := !double;
      } else if c == '\'' && !double {
        single := !single;
      } else if !single && !double {
        if c == '(' {
          depth := depth + 1;
        } else if c == ')' {
          depth := if depth - 1 > 0 then depth - 1 else 0;
        } else if depth == 0 && c == ',' {
          out := out + Flush(current);
          current := "";
          continue;
        }
      }
      current := current + [c];
    }
    out := out + Flush(current);
  }

  // ---- Parts are shorter ----

  function TotalLength(parts: seq<string>): nat { if parts == [] then 0 else |parts[0]| + TotalLength(parts[1..]) }

  lemma FlushTotal(current: string, rest: seq<string>)
    ensures TotalLength(Flush(current) + rest) <= |current| + TotalLength(rest) && TotalLength(Flush(current)) <= |current|
  {
    hide Trim;
    if Flush(current) == [] {
      assert Flush(current) + rest == rest;
    } else {
      assert (Flush(current) + rest)[1..] == rest;
    }
  }

  lemma {:induction false} PartsFit(sep: Separator, body: string, i: nat, st: Scan, current: string)
    requires i <= |body|
    ensures TotalLength(SplitFrom(sep, body, i, st, current)) <= |current| + |body| - i
    ensures forall k :: 0 <= k < |SplitFrom(sep, body, i, st, current)| ==> SplitFrom(sep, body, i, st, current)[k] != "" && Trimmed(SplitFrom(sep, body, i, st, current)[k])
    decreases |body| - i
  {
    hide Trim;
    FlushTotal(current, []);
    if i < |body| {
      if st == TOP && !IsMark(body[i]) && SepAt(sep, body, i) > 0 {
        PartsFit(sep, body, i + SepAt(sep, body, i), st, "");
        FlushTotal(current, SplitFrom(sep, body, i + SepAt(sep, body, i), st, ""));
      } else {
        PartsFit(sep, body, i + 1, Step(st, body[i]), current + [body[i]]);
      }
    }
  }

  lemma {:induction false} ShorterThanTotal(parts: seq<string>, k: nat)
    requires k < |parts| && forall i :: 0 <= i < |parts| ==> parts[i] != ""
    ensures |parts[k]| <= TotalLength(parts) && (|parts| > 1 ==> |parts[k]| < TotalLength(parts))
  {
    if k > 0 {
      ShorterThanTotal(parts[1..], k - 1);
      assert parts[0] != "";
    } else if |parts| > 1 {
      ShorterThanTotal(parts[1..], 0);
      assert parts[1] != "";
    }
  }

  /** Two or more parts of any text are each strictly shorter than the text. */
  lemma PartsShorter(sep: Separator, body: string)
    ensures forall k :: 0 <= k < |Split(sep, body)| ==> Split(sep, body)[k] != "" && Trimmed(Split(sep, body)[k]) && |Split(sep, body)[k]| <= |body|
    ensures |Split(sep, body)| > 1 ==> forall k :: 0 <= k < |Split(sep, body)| ==> |Split(sep, body)[k]| < |body|
  {
    PartsFit(sep, body, 0, TOP, "");
    forall k | 0 <= k < |Split(sep, body)|
      ensures |Split(sep, body)[k]| <= |body| && (|Split(sep, body)| > 1 ==> |Split(sep, body)[k]| < |body|)
    {
      ShorterThanTotal(Split(sep, body), k);
    }
  }

  // ---- Parts are balanced ----

  lemma WordsWalk(st: Scan, body: string, i: nat, sep: Separator)
    requires st == TOP && PlainSeparator(sep) && i < |body| && SepAt(sep, body, i) > 0
    ensures Walk(st, body[i..]) == Walk(st, body[i + SepAt(sep, body, i)..])
  {
    var n := SepAt(sep, body, i);
    assert body[i..] == body[i..i + n] + body[i + n..];
    forall j | i <= j < i + n ensures !IsMark(body[j]) {
      if sep.Keyword? { assert Lower(body[i + (j - i)]) == Lower(sep.word[j - i]); }
    }
    PlainWalk(body[i..i + n]);
    WalkConcat(st, body[i..i + n], body[i + n..]);
  }

  lemma {:induction false} PlainWalk(s: string)
    requires forall k :: 0 <= k < |s| ==> !IsMark(s[k])
    ensures Walk(TOP, s) == Some(TOP)
  {
    if s != "" { PlainWalk(s[1..]); }
  }

  lemma WalkPush(st: Scan, current: string, c: char)
    requires Walk(TOP, current) == Some(st) && !Stray(st, c)
    ensures Walk(TOP, current + [c]) == Some(Step(st, c))
  {
    WalkConcat(TOP, current, [c]);
    assert [c][1..] == "";
    assert Walk(st, [c]) == Walk(Step(st, c), "");
  }

  lemma {:induction false} BalancedParts(sep: Separator, body: string, i: nat, st: Scan, current: string)
    requires PlainSeparator(sep) && i <= |body|
    requires Walk(TOP, current) == Some(st) && Walk(st, body[i..]) == Some(TOP)
    ensures forall k :: 0 <= k < |SplitFrom(sep, body, i, st, current)| ==> Balanced(SplitFrom(sep, body, i, st, current)[k])
    decreases |body| - i
  {
    hide Trim, SepAt;
    TrimWalk(TOP, current);
    if i < |body| {
      assert body[i..][0] == body[i] && body[i..][1..] == body[i + 1..];
      if st == TOP && !IsMark(body[i]) && SepAt(sep, body, i) > 0 {
        WordsWalk(st, body, i, sep);
        BalancedParts(sep, body, i + SepAt(sep, body, i), st, "");
      } else {
        WalkPush(st, current, body[i]);
        BalancedParts(sep, body, i + 1, Step(st, body[i]), current + [body[i]]);
      }
    }
  }

  /** Splitting a balanced text gives balanced parts. */
  lemma SplitBalanced(sep: Separator, body: string)
    requires PlainSeparator(sep) && Balanced(body)
    ensures forall k :: 0 <= k < |Split(sep, body)| ==> Balanced(Split(sep, body)[k])
  {
    assert body[0..] == body;
    BalancedParts(sep, body, 0, TOP, "");
  }

  // ---- Parsing ----

  datatype Tree<C> = Leaf(c: C) | And(children: seq<Tree<C>>) | Or(children: seq<Tree<C>>)

  const OR := Keyword("or")
  const AND := Keyword("and")

  /** The children of a logical node; a single part makes no node. */
  function Build<C>(leaf: string -> Option<C>, parts: seq<string>, bound: nat): (r: Option<seq<Tree<C>>>)
    requires |parts| > 1 ==> forall k :: 0 <= k < |parts| ==> |parts[k]| < bound
    ensures r.Some? ==> |parts| == |r.value| > 1
    decreases bound, 1, 0
  {
    if |parts| <= 1 then None else ParseParts(leaf, parts, bound)
  }

  function ParseParts<C>(leaf: string -> Option<C>, parts: seq<string>, bound: nat): (r: Option<seq<Tree<C>>>)
    requires forall k :: 0 <= k < |parts| ==> |parts[k]| < bound
    ensures r.Some? ==> |r.value| == |parts| && forall k :: 0 <= k < |parts| ==> Parse(leaf, parts[k]) == Some(r.value[k])
    ensures r == None ==> exists k :: 0 <= k < |parts| && Parse(leaf, parts[k]) == None
    decreases bound, 0, |parts|
  {
    if parts == [] then Some([])
    else
      match Parse(leaf, parts[0])
      case None => None
      case Some(t) =>
        match ParseParts(leaf, parts[1..], bound)
        case None => None
        case Some(ts) => Some([t] + ts)
  }

  /** `parse_constraint_expr_recursive`; `leaf` parses a single constraint. */
  function Parse<C>(leaf: string -> Option<C>, text: string): Option<Tree<C>>
    decreases |text|, 2, 0
  {
    var s := Strip(text);
    PartsShorter(OR, s); PartsShorter(Comma, s); PartsShorter(AND, s);
    var ors := Build(leaf, Split(OR, s), |s|);
    if ors.Some? then Some(Or(ors.value))
    else
      var commas := Build(leaf, Split(Comma, s), |s|);
      if commas.Some? then Some(And(commas.value))
      else
        var ands := Build(leaf, Split(AND, s), |s|);
        if ands.Some? then Some(And(ands.value))
        else
          match leaf(s)
          case None => None
          case Some(c) => Some(Leaf(c))
  }

  method ParseConstraint<C>(leaf: string -> Option<C>, text: string) returns (r: Option<Tree<C>>)
    ensures r == Parse(leaf, text)
    decreases |text|, 1
  {
    var s := StripOuterParens(text);
    PartsShorter(OR, s);
    PartsShorter(Comma, s);
    PartsShorter(AND, s);
    var parts := SplitTopLevelLogical(s, "or");
    var ts := BuildLogicalNode(leaf, parts, |s|);
    if ts.Some? { return Some(Or(ts.value)); }
    parts := SplitTopLevelComma(s);
    ts := BuildLogicalNode(leaf, parts, |s|);
    if ts.Some? { return Some(And(ts.value)); }
    parts := SplitTopLevelLogical(s, "and");
    ts := BuildLogicalNode(leaf, parts, |s|);
    if ts.Some? { return Some(And(ts.value)); }
    var c := leaf(s);
    return match c { case None => None case Some(v) => Some(Leaf(v)) };
  }

  method BuildLogicalNode<C>(leaf: string -> Option<C>, parts: seq<string>, bound: nat) returns (r: Option<seq<Tree<C>>>)
    requires |parts| > 1 ==> forall k :: 0 <= k < |parts| ==> |parts[k]| < bound
    ensures r == Build(leaf, parts, bound)
    decreases bound, 0
  {
    if |parts| <= 1 { return None; }
    hide Parse, Build;
    var ts: seq<Tree<C>> := [];
    for k := 0 to |parts|
      invariant |ts| == k && forall j :: 0 <= j < k ==> Parse(leaf, parts[j]) == Some(ts[j])
    {
      var t := ParseConstraint(leaf, parts[k]);
      if t == None {
        FailingPart(leaf, parts, bound, k);
        return None;
      }
      ts := ts + [t.value];
    }
    PartsBack(leaf, ts, parts, bound);
    r := Some(ts);
  }

  /** One part that does not parse is enough to give up. */
  lemma FailingPart<C>(leaf: string -> Option<C>, parts: seq<string>, bound: nat, k: nat)
    requires |parts| > 1 && k < |parts| && (forall j :: 0 <= j < |parts| ==> |parts[j]| < bound)
    requires Parse(leaf, parts[k]) == None
    ensures Build(leaf, parts, bound) == None
  {
    hide Parse;
  }

  /** Parts that all parse are the children. */
  lemma PartsBack<C>(leaf: string -> Option<C>, ts: seq<Tree<C>>, parts: seq<string>, bound: nat)
    requires |parts| == |ts| > 1 && forall k :: 0 <= k < |parts| ==> |parts[k]| < bound
    requires forall k :: 0 <= k < |ts| ==> Parse(leaf, parts[k]) == Some(ts[k])
    ensures Build(leaf, parts, bound) == Some(ts)
  {
    hide Parse;
    assert ParseParts(leaf, parts, bound).value == ts;
  }

  // ---- Texts of trees ----

  /** A tree as it can be written: with commas or keywords, and in parentheses or not. */
  datatype Doc<C> = Single(c: C) | Group(inner: Doc<C>) | Ors(parts: seq<Doc<C>>) | Commas(parts: seq<Doc<C>>) | Ands(parts: seq<Doc<C>>)

  predicate IsNode<C>(d: Doc<C>) { d.Ors? || d.Commas? || d.Ands? }

  /** `or` binds loosest, then the comma, then `and`. */
  function Level<C>(d: Doc<C>): nat {
    match d
    case Ors(_) => 0 case Commas(_) => 1 case Ands(_) => 2 case Single(_) => 3 case Group(_) => 3
  }

  /** What the text means: a comma says `and`, parentheses say nothing. */
  function Meaning<C>(d: Doc<C>): Tree<C> {
    match d
    case Single(c) => Leaf(c)
    case Group(x) => Meaning(x)
    case Ors(ps) => Or(seq(|ps|, i requires 0 <= i < |ps| => Meaning(ps[i])))
    case Commas(ps) => And(seq(|ps|, i requires 0 <= i < |ps| => Meaning(ps[i])))
    case Ands(ps) => And(seq(|ps|, i requires 0 <= i < |ps| => Meaning(ps[i])))
  }

  function Glued(xs: seq<string>, glue: string): string {
    if xs == [] then "" else if |xs| == 1 then xs[0] else xs[0] + glue + Glued(xs[1..], glue)
  }

  function Text<C>(show: C -> string, d: Doc<C>): string {
    match d
    case Single(c) => show(c)
    case Group(x) => Parens(Text(show, x))
    case Ors(ps) => Glued(seq(|ps|, i requires 0 <= i < |ps| => Text(show, ps[i])), " or ")
    case Commas(ps) => Glued(seq(|ps|, i requires 0 <= i < |ps| => Text(show, ps[i])), ", ")
    case Ands(ps) => Glued(seq(|ps|, i requires 0 <= i < |ps| => Text(show, ps[i])), " and ")
  }

  function Texts<C>(show: C -> string, ds: seq<Doc<C>>): (r: seq<string>)
    ensures |r| == |ds| && forall i :: 0 <= i < |ds| ==> r[i] == Text(show, ds[i])
  {
    seq(|ds|, i requires 0 <= i < |ds| => Text(show, ds[i]))
  }

  /** The separator of a node, and what it is written as. */
  function SepOf<C>(d: Doc<C>): Separator
    requires IsNode(d)
  {
    if d.Ors? then OR else if d.Commas? then Comma else AND
  }

  function GlueOf(sep: Separator): string { match sep case Comma => ", " case Keyword(word) => " " + word + " " }

  lemma TextGlued<C>(show: C -> string, d: Doc<C>)
    requires IsNode(d)
    ensures Text(show, d) == Glued(Texts(show, d.parts), GlueOf(SepOf(d)))
  {
    assert Texts(show, d.parts) == seq(|d.parts|, i requires 0 <= i < |d.parts| => Text(show, d.parts[i]));
    assert " " + "or" + " " == " or " && " " + "and" + " " == " and ";
  }

  /** No separator stands outside quotes and parentheses. */
  predicate NoTopLevel(sep: Separator, s: string) {
    forall i :: 0 <= i < |s| && Walk(TOP, s[..i]) == Some(TOP) && !IsMark(s[i]) ==> SepAt(sep, s, i) == 0
  }

  /** A text that can stand between separators. */
  predicate Operand(s: string) { s != "" && Trimmed(s) && Balanced(s) }

  /** Leaves print as operands without top-level separators, not in parentheses of their own, and are read back. */
  predicate Printable<C(==)>(leaf: string -> Option<C>, show: C -> string, c: C) {
    && Operand(show(c)) && !FullyWrapped(show(c))
    && NoTopLevel(OR, show(c)) && NoTopLevel(Comma, show(c)) && NoTopLevel(AND, show(c))
    && leaf(show(c)) == Some(c)
  }

  /** Parts bind tighter than the node they are in, or stand in parentheses. */
  predicate Fit<C(==)>(leaf: string -> Option<C>, show: C -> string, d: Doc<C>) {
    match d
    case Single(c) => Printable(leaf, show, c)
    case Group(x) => Fit(leaf, show, x)
    case Ors(ps) => |ps| >= 2 && forall i :: 0 <= i < |ps| ==> Level(ps[i]) > 0 && Fit(leaf, show, ps[i])
    case Commas(ps) => |ps| >= 2 && forall i :: 0 <= i < |ps| ==> Level(ps[i]) > 1 && Fit(leaf, show, ps[i])
    case Ands(ps) => |ps| >= 2 && forall i :: 0 <= i < |ps| ==> Level(ps[i]) > 2 && Fit(leaf, show, ps[i])
  }

  // ---- Separators and the texts around them ----

  predicate IsLetter(c: char) { 'a' <= Lower(c) <= 'z' }

  /** The separators of the three node types. */
  predicate Known(sep: Separator) { sep == OR || sep == Comma || sep == AND }

  function SepLevel(sep: Separator): nat { if sep == OR then 0 else if sep == Comma then 1 else 2 }

  lemma WordLetters(w: string, p: nat, sep: Separator)
    requires Known(sep) && sep.Keyword? && WordAt(w, p, sep.word)
    ensures forall k :: p <= k < p + |sep.word| ==> IsLetter(w[k])
  {
    forall k | p <= k < p + |sep.word| ensures IsLetter(w[k]) {
      assert Lower(w[p + (k - p)]) == Lower(sep.word[k - p]);
    }
  }

  /** No word goes on from the end of `x` into `c`. */
  predicate Apart(x: string, c: string) { x == "" || c == "" || !IsLetter(x[|x| - 1]) || !IsLetter(c[0]) }

  /** A separator inside a larger text, at a place in `x`, is one in `x` alone. */
  lemma SepInside(sep: Separator, a: string, x: string, c: string, j: nat)
    requires Known(sep) && j < |x| && Apart(x, c)
    ensures SepAt(sep, x, j) == 0 ==> SepAt(sep, a + x + c, |a| + j) == 0
  {
    var w := a + x + c;
    assert w[|a| + j] == x[j];
    if sep.Keyword? && WordAt(w, |a| + j, sep.word) {
      WordLetters(w, |a| + j, sep);
      EndsInside(a, x, c, j, |sep.word|);
      assert w[|a|..|a| + |x|] == x;
      WordWithin(w, x, |a|, j, sep.word);
    }
  }

  lemma EndsInside(a: string, x: string, c: string, j: nat, n: nat)
    requires j < |x| && Apart(x, c) && j + n <= |x + c| && forall k :: |a| + j <= k < |a| + j + n ==> IsLetter((a + x + c)[k])
    ensures j + n <= |x|
  {
    var w := a + x + c;
    assert w[|a| + |x| - 1] == x[|x| - 1];
    assert c != "" ==> w[|a| + |x|] == c[0];
  }

  lemma WordWithin(w: string, x: string, p: nat, j: nat, word: string)
    requires p + |x| <= |w| && w[p..p + |x|] == x && j + |word| <= |x| && WordAt(w, p + j, word)
    ensures WordAt(x, j, word)
  {
    forall k | 0 <= k < |word| ensures Lower(x[j + k]) == Lower(word[k]) {
      assert x[j + k] == w[p..p + |x|][j + k] == w[p + j + k];
      assert Lower(w[(p + j) + k]) == Lower(word[k]);
    }
    assert j > 0 ==> CharAt(x, j - 1) == w[p..p + |x|][j - 1] == CharAt(w, p + j - 1);
    assert j + |word| < |x| ==> CharAt(x, j + |word|) == w[p..p + |x|][j + |word|] == CharAt(w, p + j + |word|);
  }

  /** A character that can not start the separator. */
  predicate Foreign(sep: Separator, c: char) {
    !IsMark(c) && (match sep case Comma => c != ',' case Keyword(word) => word != "" && Lower(c) != Lower(word[0]))
  }

  lemma ForeignAt(sep: Separator, body: string, i: nat)
    requires i < |body| && Foreign(sep, body[i])
    ensures SepAt(sep, body, i) == 0
  {
    if sep.Keyword? { WordStarts(body, i, sep.word); }
  }

  lemma WordStarts(body: string, i: nat, word: string)
    requires i < |body| && word != ""
    ensures WordAt(body, i, word) ==> Lower(body[i]) == Lower(word[0])
  {
    if WordAt(body, i, word) { assert Lower(body[i + 0]) == Lower(word[0]); }
  }

  predicate AllForeign(sep: Separator, g: string) { forall k :: 0 <= k < |g| ==> Foreign(sep, g[k]) }

  /** Two texts without top-level separators, glued by another separator. */
  lemma GlueKeeps(sep: Separator, a: string, g: string, b: string)
    requires Known(sep) && Balanced(a) && AllForeign(sep, g) && g != "" && !IsLetter(g[0])
    requires NoTopLevel(sep, a) && NoTopLevel(sep, b)
    ensures NoTopLevel(sep, a + g + b)
  {
    var w := a + g + b;
    PlainWalk(g);
    WalkConcat(TOP, a, g);
    assert w == "" + a + (g + b) && w == (a + g) + b + "";
    forall i | 0 <= i < |w| && Walk(TOP, w[..i]) == Some(TOP) && !IsMark(w[i]) ensures SepAt(sep, w, i) == 0 {
      hide SepAt, Balanced;
      if i < |a| {
        assert w[..i] == a[..i];
        hide Walk;
        SepInside(sep, "", a, g + b, i);
      } else if i < |a| + |g| {
        assert w[i] == g[i - |a|];
        ForeignAt(sep, w, i);
      } else {
        SecondKeeps(sep, a + g, b, i - |a + g|);
      }
    }
  }

  lemma SecondKeeps(sep: Separator, a: string, b: string, j: nat)
    requires Known(sep) && Walk(TOP, a) == Some(TOP) && NoTopLevel(sep, b) && j < |b|
    requires Walk(TOP, (a + b)[..|a| + j]) == Some(TOP) && !IsMark(b[j])
    ensures SepAt(sep, a + b, |a| + j) == 0
  {
    hide Walk, SepAt, Known, IsMark;
    assert (a + b)[..|a| + j] == a + b[..j];
    WalkConcat(TOP, a, b[..j]);
    assert a + b + "" == a + b;
    SepInside(sep, a, b, "", j);
  }

  lemma {:induction false} PrefixWalks(s: string, k: nat)
    requires Balanced(s) && k <= |s|
    ensures Walk(TOP, s[..k]).Some?
  {
    assert s == s[..k] + s[k..];
    WalkConcat(TOP, s[..k], s[k..]);
  }

  /** Inside parentheses nothing is at the top level. */
  lemma ParensHide(sep: Separator, x: string)
    requires Balanced(x)
    ensures NoTopLevel(sep, Parens(x))
  {
    var p := Parens(x);
    forall i | 0 <= i < |p| && Walk(TOP, p[..i]) == Some(TOP) ensures IsMark(p[i]) {
      if 0 < i <= |x| {
        InParens(x, i);
        assert false;
      }
    }
  }

  lemma InParens(x: string, i: nat)
    requires Balanced(x) && 0 < i <= |x| + 1
    ensures Walk(TOP, Parens(x)[..i]) != Some(TOP)
  {
    var q := x[..i - 1];
    PrefixWalks(x, i - 1);
    WalkDeeper(TOP, q);
    assert Parens(x)[..i] == "(" + q;
    assert ("(" + q)[0] == '(' && ("(" + q)[1..] == q;
  }

  /** A text with a place outside parentheses, other than its ends, is not wrapped. */
  lemma NotWrapped(v: string, i: nat)
    requires 0 < i < |v| && Walk(TOP, v[..i]) == Some(TOP)
    ensures !FullyWrapped(v)
  {
    WrappedMeaning(v);
    hide FullyWrapped;
    forall inner | v == Parens(inner) ensures !Balanced(inner) {
      if Balanced(inner) { InParens(inner, i); }
    }
  }

  // ---- Splitting ----

  /** A text without top-level separators stays in one piece. */
  lemma {:induction false} OnePiece(sep: Separator, s: string, i: nat, st: Scan)
    requires i <= |s| && NoTopLevel(sep, s) && Walk(TOP, s[..i]) == Some(st) && Walk(st, s[i..]).Some?
    ensures SplitFrom(sep, s, i, st, s[..i]) == Flush(s)
    decreases |s| - i
  {
    hide Trim, SepAt;
    if i == |s| {
      assert s[..i] == s;
    } else {
      assert s[i..][0] == s[i] && s[i..][1..] == s[i + 1..] && s[..i + 1] == s[..i] + [s[i]];
      WalkPush(st, s[..i], s[i]);
      OnePiece(sep, s, i + 1, Step(st, s[i]));
    }
  }

  lemma NotSplit(sep: Separator, s: string)
    requires NoTopLevel(sep, s) && Balanced(s)
    ensures |Split(sep, s)| <= 1
  {
    assert s[..0] == "" && s[0..] == s;
    OnePiece(sep, s, 0, TOP);
  }

  /** Passing an operand: nothing is split, and it is added to the current part. */
  lemma {:induction false} PassOperand(sep: Separator, a: string, x: string, c: string, k: nat, st: Scan, current: string)
    requires Known(sep) && k <= |x| && NoTopLevel(sep, x) && Walk(TOP, x[..k]) == Some(st) && Walk(st, x[k..]) == Some(TOP)
    requires Apart(x, c)
    ensures SplitFrom(sep, a + x + c, |a| + k, st, current) == SplitFrom(sep, a + x + c, |a| + |x|, TOP, current + x[k..])
    decreases |x| - k
  {
    hide SepAt, Flush;
    var body := a + x + c;
    if k == |x| {
      assert x[k..] == "" && current + x[k..] == current;
    } else {
      assert body[|a| + k] == x[k];
      assert x[k..][0] == x[k] && x[k..][1..] == x[k + 1..] && x[..k + 1] == x[..k] + [x[k]];
      WalkPush(st, x[..k], x[k]);
      if st == TOP && !IsMark(x[k]) { SepInside(sep, a, x, c, k); }
      PassOperand(sep, a, x, c, k + 1, Step(st, x[k]), current + [x[k]]);
      assert current + [x[k]] + x[k + 1..] == current + x[k..];
    }
  }

  lemma AtEnd(sep: Separator, body: string, st: Scan, current: string)
    ensures SplitFrom(sep, body, |body|, st, current) == Flush(current)
  {
  }

  /** Crossing " word " splits there. */
  lemma CrossWord(word: string, body: string, i: nat, current: string)
    requires PlainSeparator(Keyword(word)) && i + |word| + 2 <= |body| && body[i..i + |word| + 2] == " " + word + " "
    ensures SplitFrom(Keyword(word), body, i, TOP, current) == Flush(current + " ") + SplitFrom(Keyword(word), body, i + |word| + 2, TOP, " ")
  {
    var sep, g := Keyword(word), body[i..i + |word| + 2];
    assert body[i] == g[0] == ' ' && body[i + 1 + |word|] == g[1 + |word|] == ' ';
    ForeignAt(sep, body, i);
    forall k | 0 <= k < |word| ensures body[i + 1 + k] == word[k] { assert body[i + 1 + k] == g[1 + k]; }
    assert WordAt(body, i + 1, word);
    assert body[i + 1] == word[0];
    var j := i + 1 + |word|;
    ForeignAt(sep, body, j);
    assert "" + [body[j]] == " " && current + [body[i]] == current + " ";
    assert SplitFrom(sep, body, j, TOP, "") == SplitFrom(sep, body, j + 1, TOP, " ");
    assert SplitFrom(sep, body, i + 1, TOP, current + " ") == Flush(current + " ") + SplitFrom(sep, body, j, TOP, "");
    hide Flush, WordAt, SepAt;
  }

  lemma CrossComma(body: string, i: nat, current: string)
    requires i + 2 <= |body| && body[i..i + 2] == ", "
    ensures SplitFrom(Comma, body, i, TOP, current) == Flush(current) + SplitFrom(Comma, body, i + 2, TOP, " ")
  {
    assert body[i] == body[i..i + 2][0] == ',' && body[i + 1] == body[i..i + 2][1] == ' ';
    assert "" + [body[i + 1]] == " ";
    assert SplitFrom(Comma, body, i + 1, TOP, "") == SplitFrom(Comma, body, i + 2, TOP, " ");
  }

  /** Behind an operand its own separator ends the part. */
  lemma CrossGlue(sep: Separator, body: string, i: nat, pad: string, x: string)
    requires Known(sep) && AllSpace(pad) && x != "" && Trimmed(x) && i + |GlueOf(sep)| <= |body| && body[i..i + |GlueOf(sep)|] == GlueOf(sep)
    ensures SplitFrom(sep, body, i, TOP, pad + x) == [x] + SplitFrom(sep, body, i + |GlueOf(sep)|, TOP, " ")
  {
    hide SplitFrom;
    if sep == Comma {
      CrossComma(body, i, pad + x);
      TrimPad(pad, x, "");
      assert pad + x + "" == pad + x;
    } else {
      CrossWord(sep.word, body, i, pad + x);
      TrimPad(pad, x, " ");
    }
  }

  predicate OperandsOf(sep: Separator, xs: seq<string>) { forall k :: 0 <= k < |xs| ==> Operand(xs[k]) && NoTopLevel(sep, xs[k]) }

  /** The first of several operands is split off. */
  lemma FirstSplit(sep: Separator, pre: string, x: string, rest: string, pad: string)
    requires Known(sep) && Operand(x) && NoTopLevel(sep, x) && AllSpace(pad)
    ensures SplitFrom(sep, pre + x + GlueOf(sep) + rest, |pre|, TOP, pad) == [x] + SplitFrom(sep, pre + x + GlueOf(sep) + rest, |pre + x + GlueOf(sep)|, TOP, " ")
  {
    hide *;
    var g := GlueOf(sep);
    var body := pre + x + g + rest;
    GluePlain(sep);
    GlueApart(x, g, rest);
    WholeWalk(x);
    assert body == pre + x + (g + rest) && x[0..] == x;
    PassOperand(sep, pre, x, g + rest, 0, TOP, pad);
    assert body[|pre + x|..|pre + x| + |g|] == g;
    CrossGlue(sep, body, |pre + x|, pad, x);
  }

  lemma GlueApart(x: string, g: string, rest: string)
    requires g != "" && !IsLetter(g[0])
    ensures Apart(x, g + rest)
  {
    assert (g + rest)[0] == g[0];
  }

  lemma LastSplit(sep: Separator, pre: string, x: string, pad: string)
    requires Known(sep) && Operand(x) && NoTopLevel(sep, x) && AllSpace(pad)
    ensures SplitFrom(sep, pre + x, |pre|, TOP, pad) == [x]
  {
    assert x[..0] == "" && x[0..] == x && pre + x + "" == pre + x && pad + x + "" == pad + x;
    hide SplitFrom, NoTopLevel, IsLetter;
    PassOperand(sep, pre, x, "", 0, TOP, pad);
    AtEnd(sep, pre + x, TOP, pad + x);
    TrimPad(pad, x, "");
  }

  /** Operands glued by a separator are split by it into the operands. */
  lemma {:induction false} GluedSplit(sep: Separator, xs: seq<string>, pre: string, pad: string)
    requires Known(sep) && xs != [] && OperandsOf(sep, xs) && AllSpace(pad)
    ensures SplitFrom(sep, pre + Glued(xs, GlueOf(sep)), |pre|, TOP, pad) == xs
    decreases |xs|
  {
    hide SplitFrom, NoTopLevel, Operand, Known, GlueOf;
    var g, x := GlueOf(sep), xs[0];
    assert Operand(x) && NoTopLevel(sep, x);
    if |xs| == 1 {
      LastSplit(sep, pre, x, pad);
    } else {
      var rest := Glued(xs[1..], g);
      FirstSplit(sep, pre, x, rest, pad);
      GluedSplit(sep, xs[1..], pre + x + g, " ");
      assert pre + Glued(xs, g) == pre + x + g + rest;
    }
  }

  // ---- Keywords are whole words, in any case ----

  predicate SameLetters(w: string, word: string) { |w| == |word| && forall k :: 0 <= k < |word| ==> Lower(w[k]) == word[k] }

  /** A keyword between two operands splits them, set off by white space or by their parentheses. */
  lemma SplitOnce(sep: Separator, x: string, l: string, w: string, r: string, y: string)
    requires sep in {OR, AND} && Operand(x) && Operand(y) && NoTopLevel(sep, x) && NoTopLevel(sep, y)
    requires SameLetters(w, sep.word) && AllSpace(l) && AllSpace(r) && (l == "" ==> x[|x| - 1] == ')') && (r == "" ==> y[0] == '(')
    ensures Split(sep, x + l + w + r + y) == [x, y]
  {
    hide SplitFrom, NoTopLevel, Trim, Flush, SameLetters, IsSpace;
    var body := x + l + w + r + y;
    UpToKeyword(sep, x, l, w + r + y);
    assert body == x + l + (w + r + y) && body == (x + l) + w + (r + y);
    Ends(x, l, r, y);
    CrossKeyword(sep, x + l, w, r + y, x + l);
    FromKeyword(sep, x + l + w, r, y);
    assert body == (x + l + w) + r + y;
    FlushOperand(x, l);
  }

  lemma Ends(x: string, l: string, r: string, y: string)
    requires x != "" && y != "" && AllSpace(l) && AllSpace(r) && (l == "" ==> x[|x| - 1] == ')') && (r == "" ==> y[0] == '(')
    ensures var a, b := x + l, r + y; (IsSpace(a[|a| - 1]) || a[|a| - 1] == ')') && (IsSpace(b[0]) || b[0] == '(')
  {
    var a, b := x + l, r + y;
    assert a[|a| - 1] == if l == "" then x[|x| - 1] else l[|l| - 1];
    assert b[0] == if r == "" then y[0] else r[0];
    hide IsSpace;
  }

  lemma FlushOperand(x: string, l: string)
    requires Operand(x) && AllSpace(l)
    ensures Flush(x + l) == [x]
  {
    TrimPad("", x, l);
    assert "" + x + l == x + l;
  }

  lemma FromKeyword(sep: Separator, p: string, r: string, y: string)
    requires sep in {OR, AND} && Known(sep) && AllSpace(r) && Operand(y) && NoTopLevel(sep, y)
    ensures SplitFrom(sep, p + r + y, |p|, TOP, "") == [y]
  {
    var body := p + r + y;
    hide *;
    assert body[|p|..|p| + |r|] == r && "" + r == r;
    PassSpace(sep, body, |p|, "", r);
    LastSplit(sep, p + r, y, r);
  }

  lemma UpToKeyword(sep: Separator, x: string, l: string, rest: string)
    requires sep in {OR, AND} && Known(sep) && Operand(x) && NoTopLevel(sep, x) && AllSpace(l) && (l == "" ==> x[|x| - 1] == ')')
    ensures Split(sep, x + l + rest) == SplitFrom(sep, x + l + rest, |x + l|, TOP, x + l)
  {
    hide *;
    var body, tail := x + l + rest, l + rest;
    WholeWalk(x);
    EndApart(x, l, rest);
    SplitStarts(sep, body);
    assert body == "" + x + tail && x[..0] == "" && x[0..] == x && "" + x == x;
    PassOperand(sep, "", x, tail, 0, TOP, "");
    assert body[|x|..|x| + |l|] == l;
    PassSpace(sep, body, |x|, x, l);
  }

  lemma SplitStarts(sep: Separator, body: string)
    ensures Split(sep, body) == SplitFrom(sep, body, 0, TOP, "")
  {
  }

  lemma WholeWalk(x: string)
    requires Operand(x)
    ensures x != "" && Trimmed(x) && Walk(TOP, x[..0]) == Some(TOP) && Walk(TOP, x[0..]) == Some(TOP) && Known(OR) && Known(AND)
  {
    assert x[..0] == "" && x[0..] == x;
  }

  lemma EndApart(x: string, l: string, rest: string)
    requires x != "" && AllSpace(l) && (l == "" ==> x[|x| - 1] == ')')
    ensures Apart(x, l + rest)
  {
    SpaceNoLetter();
    assert l != "" ==> (l + rest)[0] == l[0];
    hide IsSpace;
  }

  lemma SpaceNoLetter()
    ensures forall c :: IsSpace(c) ==> !IsLetter(c) && !IsMark(c) && c != ','
  {
  }

  lemma PassOne(sep: Separator, body: string, i: nat, current: string)
    requires i < |body| && SepAt(sep, body, i) == 0
    ensures SplitFrom(sep, body, i, TOP, current) == SplitFrom(sep, body, i + 1, Step(TOP, body[i]), current + [body[i]])
  {
    hide SepAt;
  }

  lemma {:induction false} PassSpace(sep: Separator, body: string, i: nat, current: string, l: string)
    requires sep in {OR, AND} && AllSpace(l) && i + |l| <= |body| && body[i..i + |l|] == l
    ensures SplitFrom(sep, body, i, TOP, current) == SplitFrom(sep, body, i + |l|, TOP, current + l)
    decreases |l|
  {
    hide SplitFrom;
    if l == "" {
      assert current + l == current;
    } else {
      SpaceNoLetter();
      assert body[i] == l[0] && body[i + 1..i + 1 + |l[1..]|] == l[1..];
      ForeignAt(sep, body, i);
      PassOne(sep, body, i, current);
      PassSpace(sep, body, i + 1, current + [l[0]], l[1..]);
      assert current + [l[0]] + l[1..] == current + l;
    }
  }

  lemma KeywordHere(sep: Separator, pre: string, w: string, post: string)
    requires sep in {OR, AND} && SameLetters(w, sep.word)
    requires pre != "" && (IsSpace(pre[|pre| - 1]) || pre[|pre| - 1] == ')') && post != "" && (IsSpace(post[0]) || post[0] == '(')
    ensures var body := pre + w + post; w != "" && IsLetter(body[|pre|]) && WordAt(body, |pre|, sep.word)
  {
    var body := pre + w + post;
    forall k | 0 <= k < |w| ensures Lower(body[|pre| + k]) == sep.word[k] { assert body[|pre| + k] == w[k]; }
    assert body[|pre| - 1] == pre[|pre| - 1] && body[|pre| + |w|] == post[0];
    assert Lower(body[|pre| + 0]) == sep.word[0];
  }

  lemma CrossAt(word: string, body: string, i: nat, current: string)
    requires i < |body| && word != "" && WordAt(body, i, word) && !IsMark(body[i])
    ensures SplitFrom(Keyword(word), body, i, TOP, current) == Flush(current) + SplitFrom(Keyword(word), body, i + |word|, TOP, "")
  {
    hide Flush, IsMark;
  }

  lemma CrossKeyword(sep: Separator, pre: string, w: string, post: string, current: string)
    requires sep in {OR, AND} && SameLetters(w, sep.word)
    requires pre != "" && (IsSpace(pre[|pre| - 1]) || pre[|pre| - 1] == ')') && post != "" && (IsSpace(post[0]) || post[0] == '(')
    ensures SplitFrom(sep, pre + w + post, |pre|, TOP, current) == Flush(current) + SplitFrom(sep, pre + w + post, |pre + w|, TOP, "")
  {
    hide SplitFrom, Flush, WordAt, IsSpace;
    KeywordHere(sep, pre, w, post);
    SameLength(w, sep.word);
    LetterNoMark((pre + w + post)[|pre|]);
    CrossAt(sep.word, pre + w + post, |pre|, current);
  }

  lemma LetterNoMark(c: char)
    ensures IsLetter(c) ==> !IsMark(c)
  {
  }

  lemma SameLength(w: string, word: string)
    requires SameLetters(w, word)
    ensures |w| == |word|
  {
  }

  /** Inside a word there is no keyword: `color` is not split at its `or`. */
  lemma WordNotSplit(sep: Separator, s: string)
    requires sep in {OR, AND} && s != "" && forall k :: 0 <= k < |s| ==> !IsSpace(s[k]) && !IsMark(s[k])
    ensures Split(sep, s) == if SameLetters(s, sep.word) then [] else [s]
  {
    assert s[0..] == s && s[..0] == "";
    TrimId(s);
    PlainWalk(s);
    if SameLetters(s, sep.word) {
      assert WordAt(s, 0, sep.word);
      assert SplitFrom(sep, s, |s|, TOP, "") == [];
    } else {
      forall i | 0 <= i < |s| ensures SepAt(sep, s, i) == 0 { NoWordHere(sep, s, i); }
      OnePiece(sep, s, 0, TOP);
    }
  }

  lemma WholeWord(s: string, i: nat, word: string)
    requires WordAt(s, i, word) && i < |s| && forall k :: 0 <= k < |s| ==> !IsSpace(s[k]) && !IsMark(s[k])
    ensures i == 0 && |s| == |word| && forall k :: 0 <= k < |s| ==> Lower(s[k]) == Lower(word[k])
  {
    CharIn(s, i - 1);
    CharIn(s, i + |word|);
    forall k | 0 <= k < |word| ensures Lower(s[k]) == Lower(word[k]) { assert Lower(s[i + k]) == Lower(word[k]); }
  }

  lemma CharIn(s: string, i: int)
    ensures 0 <= i < |s| ==> CharAt(s, i) == s[i]
  {
  }

  lemma NoWordHere(sep: Separator, s: string, i: nat)
    requires sep in {OR, AND} && i < |s| && !SameLetters(s, sep.word) && forall k :: 0 <= k < |s| ==> !IsSpace(s[k]) && !IsMark(s[k])
    ensures SepAt(sep, s, i) == 0
  {
    if WordAt(s, i, sep.word) {
      WholeWord(s, i, sep.word);
      assert false;
    }
  }

  lemma KeywordCases()
    ensures Split(OR, "a Or b") == ["a", "b"] && Split(AND, "(a)AND(b)") == ["(a)", "(b)"] && Split(OR, "color") == ["color"]
  {
    PlainOperand("a");
    PlainOperand("b");
    ParensOperand("a");
    ParensOperand("b");
    assert Parens("a") == "(a)" && Parens("b") == "(b)";
    assert SameLetters("Or", "or") && SameLetters("AND", "and") && !SameLetters("color", "or");
    hide Operand, NoTopLevel, Split, SepAt, SameLetters;
    SplitOnce(OR, "a", " ", "Or", " ", "b");
    assert "a" + " " + "Or" + " " + "b" == "a Or b";
    SplitOnce(AND, "(a)", "", "AND", "", "(b)");
    assert "(a)" + "" + "AND" + "" + "(b)" == "(a)AND(b)";
    WordNotSplit(OR, "color");
  }

  lemma PlainOperand(s: string)
    requires |s| == 1 && IsLetter(s[0])
    ensures Operand(s) && NoTopLevel(OR, s) && NoTopLevel(AND, s)
  {
    PlainWalk(s);
  }

  // ---- Quotes ----

  function In(mark: char): Scan { Scan(0, mark == '\'', mark == '"') }

  /** Inside quotes the scan stays where it is. */
  lemma {:induction false} InsideQuotes(mark: char, q: string)
    requires (mark == '"' || mark == '\'') && forall k :: 0 <= k < |q| ==> q[k] != mark
    ensures Walk(In(mark), q) == Some(In(mark))
  {
    if q != "" { InsideQuotes(mark, q[1..]); }
  }

  /** What stands in quotes is not split, whatever it is. */
  lemma QuotedKept(sep: Separator, mark: char, q: string)
    requires Known(sep) && (mark == '"' || mark == '\'') && forall k :: 0 <= k < |q| ==> q[k] != mark
    ensures var s := [mark] + q + [mark]; Split(sep, s) == [s]
  {
    var s := [mark] + q + [mark];
    QuotesWalk(mark, q);
    forall i | 0 <= i < |s| ensures Walk(TOP, s[..i]) == Some(TOP) && !IsMark(s[i]) ==> SepAt(sep, s, i) == 0 { QuotePlaces(mark, q, i); }
    assert s[..0] == "" && s[0..] == s;
    hide SepAt;
    OnePiece(sep, s, 0, TOP);
    TrimId(s);
  }

  lemma QuotesWalk(mark: char, q: string)
    requires (mark == '"' || mark == '\'') && forall k :: 0 <= k < |q| ==> q[k] != mark
    ensures Walk(TOP, [mark] + q + [mark]) == Some(TOP)
  {
    InsideQuotes(mark, q);
    assert [mark][1..] == "" && Walk(TOP, [mark]) == Walk(Step(TOP, mark), "") == Some(In(mark));
    assert Walk(In(mark), [mark]) == Walk(Step(In(mark), mark), "") == Some(TOP);
    WalkConcat(TOP, [mark], q);
    WalkConcat(TOP, [mark] + q, [mark]);
  }

  /** Only the quotes themselves are outside the quotes. */
  lemma QuotePlaces(mark: char, q: string, i: nat)
    requires (mark == '"' || mark == '\'') && (forall k :: 0 <= k < |q| ==> q[k] != mark) && i < |[mark] + q + [mark]|
    ensures var s := [mark] + q + [mark]; Walk(TOP, s[..i]) == Some(TOP) ==> IsMark(s[i])
  {
    var s := [mark] + q + [mark];
    if 0 < i <= |q| {
      assert s[..i] == [mark] + q[..i - 1];
      InsideQuotes(mark, q[..i - 1]);
      assert [mark][1..] == "" && Walk(TOP, [mark]) == Walk(Step(TOP, mark), "") == Some(In(mark));
      WalkConcat(TOP, [mark], q[..i - 1]);
    }
  }

  // ---- Texts of documents ----

  lemma GlueForeign(sep: Separator, other: Separator)
    requires Known(sep) && Known(other) && sep != other
    ensures AllForeign(sep, GlueOf(other))
  {
    assert GlueOf(OR) == " or " && GlueOf(AND) == " and " && GlueOf(Comma) == ", ";
  }

  lemma GluePlain(sep: Separator)
    requires Known(sep)
    ensures GlueOf(sep) != "" && !IsLetter(GlueOf(sep)[0]) && Walk(TOP, GlueOf(sep)) == Some(TOP)
  {
    assert GlueOf(OR) == " or " && GlueOf(AND) == " and " && GlueOf(Comma) == ", ";
    PlainWalk(GlueOf(sep));
  }

  /** A glued text is an operand, and is split by no looser separator. */
  lemma {:induction false} GluedOperand(xs: seq<string>, own: Separator, sep: Separator)
    requires Known(own) && Known(sep) && sep != own && xs != [] && OperandsOf(sep, xs)
    ensures Operand(Glued(xs, GlueOf(own))) && NoTopLevel(sep, Glued(xs, GlueOf(own)))
  {
    assert Operand(xs[0]) && NoTopLevel(sep, xs[0]);
    if |xs| > 1 {
      var g, rest := GlueOf(own), Glued(xs[1..], GlueOf(own));
      GluedOperand(xs[1..], own, sep);
      GluePlain(own);
      GlueForeign(sep, own);
      hide NoTopLevel, AllForeign;
      GlueKeeps(sep, xs[0], g, rest);
      WalkConcat(TOP, xs[0], g);
      WalkConcat(TOP, xs[0] + g, rest);
    }
  }

  lemma {:induction false} GluedPlain(xs: seq<string>, own: Separator)
    requires Known(own) && xs != [] && forall k :: 0 <= k < |xs| ==> Operand(xs[k])
    ensures Operand(Glued(xs, GlueOf(own)))
  {
    if |xs| > 1 {
      GluedPlain(xs[1..], own);
      GluePlain(own);
      WalkConcat(TOP, xs[0], GlueOf(own));
      WalkConcat(TOP, xs[0] + GlueOf(own), Glued(xs[1..], GlueOf(own)));
    }
  }

  /** The text of a document is an operand, and separators that bind looser are not at its top level. */
  lemma {:induction false} TextOperand<C>(leaf: string -> Option<C>, show: C -> string, d: Doc<C>)
    requires Fit(leaf, show, d)
    ensures Operand(Text(show, d))
    ensures forall sep :: Known(sep) && SepLevel(sep) < Level(d) ==> NoTopLevel(sep, Text(show, d))
    decreases d
  {
    hide Operand, NoTopLevel;
    match d
    case Single(_) =>
    case Group(x) =>
      TextOperand(leaf, show, x);
      ParensOperand(Text(show, x));
    case _ =>
      var xs := Texts(show, d.parts);
      forall k | 0 <= k < |xs| ensures Operand(xs[k]) && forall sep :: Known(sep) && SepLevel(sep) <= Level(d) ==> NoTopLevel(sep, xs[k]) {
        TextOperand(leaf, show, d.parts[k]);
      }
      TextGlued(show, d);
      GluedPlain(xs, SepOf(d));
      hide Text;
      forall sep | Known(sep) ensures SepLevel(sep) < Level(d) ==> NoTopLevel(sep, Text(show, d)) {
        LooserKept(show, d, sep);
      }
  }

  lemma LooserKept<C>(show: C -> string, d: Doc<C>, sep: Separator)
    requires IsNode(d) && d.parts != [] && Known(sep)
    requires forall k :: 0 <= k < |d.parts| ==> Operand(Text(show, d.parts[k])) && (SepLevel(sep) <= Level(d) ==> NoTopLevel(sep, Text(show, d.parts[k])))
    ensures SepLevel(sep) < Level(d) ==> NoTopLevel(sep, Text(show, d))
  {
    TextGlued(show, d);
    hide Operand, NoTopLevel, Text;
    if SepLevel(sep) < Level(d) { GluedOperand(Texts(show, d.parts), SepOf(d), sep); }
  }

  lemma ParensOperand(x: string)
    requires Operand(x)
    ensures Operand(Parens(x)) && forall sep :: NoTopLevel(sep, Parens(x))
  {
    ParensBalanced(x);
    hide NoTopLevel;
    forall sep ensures NoTopLevel(sep, Parens(x)) { ParensHide(sep, x); }
  }

  /** Stripping a written node gives its text back, and parentheses around any text go. */
  lemma StripText<C>(leaf: string -> Option<C>, show: C -> string, d: Doc<C>)
    requires Fit(leaf, show, d)
    ensures d.Group? ==> Strip(Text(show, d)) == Strip(Text(show, d.inner))
    ensures !d.Group? ==> Strip(Text(show, d)) == Text(show, d)
  {
    TextOperand(leaf, show, d);
    TrimId(Text(show, d));
    if d.Group? {
      var x := Text(show, d.inner);
      TextOperand(leaf, show, d.inner);
      WrappedMeaning(Parens(x));
      assert Parens(x)[1..|Parens(x)| - 1] == x;
      hide FullyWrapped, Trim;
    } else if IsNode(d) {
      NodeNotWrapped(leaf, show, d);
      hide FullyWrapped, Trim;
    } else {
      hide FullyWrapped, Trim;
    }
  }

  lemma NodeNotWrapped<C>(leaf: string -> Option<C>, show: C -> string, d: Doc<C>)
    requires Fit(leaf, show, d) && IsNode(d)
    ensures !FullyWrapped(Text(show, d))
  {
    var xs := Texts(show, d.parts);
    TextOperand(leaf, show, d.parts[0]);
    TextGlued(show, d);
    GluePlain(SepOf(d));
    var v := Text(show, d);
    assert v[..|xs[0]|] == xs[0];
    hide FullyWrapped;
    NotWrapped(v, |xs[0]|);
  }

  /** A node is split at its own separator into its parts, and at no looser one. */
  lemma NodeSplits<C>(leaf: string -> Option<C>, show: C -> string, d: Doc<C>)
    requires Fit(leaf, show, d) && IsNode(d)
    ensures Split(SepOf(d), Text(show, d)) == Texts(show, d.parts)
    ensures forall sep :: Known(sep) && SepLevel(sep) < Level(d) ==> |Split(sep, Text(show, d))| <= 1
  {
    var xs, own := Texts(show, d.parts), SepOf(d);
    TextOperand(leaf, show, d);
    forall k | 0 <= k < |xs| ensures Operand(xs[k]) && NoTopLevel(own, xs[k]) {
      TextOperand(leaf, show, d.parts[k]);
    }
    TextGlued(show, d);
    hide Operand, NoTopLevel, Text;
    GluedSplit(own, xs, "", "");
    assert "" + Glued(xs, GlueOf(own)) == Glued(xs, GlueOf(own));
    forall sep | Known(sep) && SepLevel(sep) < Level(d) ensures |Split(sep, Text(show, d))| <= 1 {
      OperandBalanced(Text(show, d));
      NotSplit(sep, Text(show, d));
    }
  }

  lemma OperandBalanced(s: string)
    requires Operand(s)
    ensures Balanced(s)
  {
  }

  lemma LeafSplits<C>(leaf: string -> Option<C>, show: C -> string, c: C, sep: Separator)
    requires Printable(leaf, show, c) && Known(sep)
    ensures |Split(sep, show(c))| <= 1
  {
    NotSplit(sep, show(c));
  }

  function Meanings<C>(ds: seq<Doc<C>>): (r: seq<Tree<C>>)
    ensures |r| == |ds| && forall i :: 0 <= i < |ds| ==> r[i] == Meaning(ds[i])
  {
    seq(|ds|, i requires 0 <= i < |ds| => Meaning(ds[i]))
  }

  lemma NodeMeaning<C>(d: Doc<C>)
    requires IsNode(d)
    ensures Meaning(d) == if d.Ors? then Or(Meanings(d.parts)) else And(Meanings(d.parts))
  {
    assert Meanings(d.parts) == seq(|d.parts|, i requires 0 <= i < |d.parts| => Meaning(d.parts[i]));
  }

  /** Any text that strips to a written text parses to what that means. */
  lemma {:induction false} ParseWritten<C>(leaf: string -> Option<C>, show: C -> string, d: Doc<C>, text: string)
    requires Fit(leaf, show, d) && Strip(text) == Strip(Text(show, d))
    ensures Parse(leaf, text) == Some(Meaning(d))
    decreases d
  {
    StripText(leaf, show, d);
    var s := Strip(text);
    PartsShorter(OR, s);
    PartsShorter(Comma, s);
    PartsShorter(AND, s);
    match d
    case Group(x) => ParseWritten(leaf, show, x, text);
    case Single(c) =>
      LeafSplits(leaf, show, c, OR);
      LeafSplits(leaf, show, c, Comma);
      LeafSplits(leaf, show, c, AND);
    case _ =>
      var xs, ts := Texts(show, d.parts), Meanings(d.parts);
      forall k | 0 <= k < |xs| ensures Parse(leaf, xs[k]) == Some(ts[k]) { ParseWritten(leaf, show, d.parts[k], xs[k]); }
      NodeSplits(leaf, show, d);
      NodeMeaning(d);
      hide Split, Strip, Text, Fit, Meaning;
      PartsBack(leaf, ts, xs, |s|);
  }

  /** Parsing a written text gives what it means: `or` binds loosest, then the comma, then `and`. */
  lemma ParseText<C>(leaf: string -> Option<C>, show: C -> string, d: Doc<C>)
    requires Fit(leaf, show, d)
    ensures Parse(leaf, Text(show, d)) == Some(Meaning(d))
  {
    ParseWritten(leaf, show, d, Text(show, d));
  }

  // ---- Rendering ----

  /** Trees whose logical nodes branch and whose leaves can be written. */
  predicate WellFormed<C(==)>(leaf: string -> Option<C>, show: C -> string, t: Tree<C>) {
    match t
    case Leaf(c) => Printable(leaf, show, c)
    case And(ts) => |ts| >= 2 && forall i :: 0 <= i < |ts| ==> WellFormed(leaf, show, ts[i])
    case Or(ts) => |ts| >= 2 && forall i :: 0 <= i < |ts| ==> WellFormed(leaf, show, ts[i])
  }

  /** Parentheses only where they are needed. */
  function InPlace<C>(level: nat, d: Doc<C>): Doc<C> { if Level(d) > level then d else Group(d) }

  /** A tree written with as few parentheses as possible, with commas or with `and`. */
  function Laid<C>(t: Tree<C>, commas: bool): Doc<C> {
    match t
    case Leaf(c) => Single(c)
    case Or(ts) => Ors(seq(|ts|, i requires 0 <= i < |ts| => InPlace(0, Laid(ts[i], commas))))
    case And(ts) =>
      if commas then Commas(seq(|ts|, i requires 0 <= i < |ts| => InPlace(1, Laid(ts[i], commas))))
      else Ands(seq(|ts|, i requires 0 <= i < |ts| => InPlace(2, Laid(ts[i], commas))))
  }

  function Render<C>(show: C -> string, t: Tree<C>, commas: bool): string { Text(show, Laid(t, commas)) }

  lemma {:induction false} LaidFits<C>(leaf: string -> Option<C>, show: C -> string, t: Tree<C>, commas: bool)
    requires WellFormed(leaf, show, t)
    ensures Fit(leaf, show, Laid(t, commas)) && Meaning(Laid(t, commas)) == t
    decreases t
  {
    if !t.Leaf? {
      var d := Laid(t, commas);
      forall i | 0 <= i < |t.children| ensures Fit(leaf, show, d.parts[i]) && Meaning(d.parts[i]) == t.children[i] && Level(d.parts[i]) > Level(d) {
        LaidFits(leaf, show, t.children[i], commas);
      }
      NodeMeaning(d);
      assert Meanings(d.parts) == t.children;
    }
  }

  /** Rendering a tree, with commas or with keywords, and parsing the text returns the tree. */
  lemma RoundTrip<C>(leaf: string -> Option<C>, show: C -> string, t: Tree<C>, commas: bool)
    requires WellFormed(leaf, show, t)
    ensures Parse(leaf, Render(show, t, commas)) == Some(t)
  {
    LaidFits(leaf, show, t, commas);
    ParseText(leaf, show, Laid(t, commas));
  }

  /** Without parentheses `or` splits first, then the comma, then `and`. */
  lemma MixedSeparators<C>(leaf: string -> Option<C>, show: C -> string, a: C, b: C, c: C, d: C)
    requires Printable(leaf, show, a) && Printable(leaf, show, b) && Printable(leaf, show, c) && Printable(leaf, show, d)
    ensures Parse(leaf, show(a) + " or " + show(b) + ", " + show(c) + " and " + show(d))
      == Some(Or([Leaf(a), And([Leaf(b), And([Leaf(c), Leaf(d)])])]))
    ensures Parse(leaf, show(a) + ", " + show(b)) == Some(And([Leaf(a), Leaf(b)]))
    ensures Parse(leaf, show(a) + " and " + show(b)) == Some(And([Leaf(a), Leaf(b)]))
    ensures Parse(leaf, show(a) + " or " + show(b)) == Some(Or([Leaf(a), Leaf(b)]))
  {
    hide Parse, Printable, Text, Fit, Meaning;
    Leaves(leaf, show, a, b);
    Leaves(leaf, show, c, d);
    PairParses(leaf, show, Commas([Single(a), Single(b)]));
    PairParses(leaf, show, Ands([Single(a), Single(b)]));
    PairParses(leaf, show, Ors([Single(a), Single(b)]));
    PairParses(leaf, show, Ands([Single(c), Single(d)]));
    PairParses(leaf, show, Commas([Single(b), Ands([Single(c), Single(d)])]));
    PairParses(leaf, show, Ors([Single(a), Commas([Single(b), Ands([Single(c), Single(d)])])]));
    assert show(a) + " or " + (show(b) + ", " + (show(c) + " and " + show(d))) == show(a) + " or " + show(b) + ", " + show(c) + " and " + show(d);
  }

  lemma Leaves<C>(leaf: string -> Option<C>, show: C -> string, a: C, b: C)
    requires Printable(leaf, show, a) && Printable(leaf, show, b)
    ensures Fit(leaf, show, Single(a)) && Fit(leaf, show, Single(b)) && Level(Single(a)) == Level(Single(b)) == 3
    ensures Text(show, Single(a)) == show(a) && Text(show, Single(b)) == show(b)
    ensures Meaning(Single(a)) == Leaf(a) && Meaning(Single(b)) == Leaf(b)
  {
  }

  /** Two parts and what stands between them. */
  lemma PairParses<C>(leaf: string -> Option<C>, show: C -> string, d: Doc<C>)
    requires IsNode(d) && |d.parts| == 2 && Fit(leaf, show, d.parts[0]) && Fit(leaf, show, d.parts[1])
    requires Level(d.parts[0]) > Level(d) && Level(d.parts[1]) > Level(d)
    ensures Fit(leaf, show, d)
    ensures Text(show, d) == Text(show, d.parts[0]) + (if d.Ors? then " or " else if d.Commas? then ", " else " and ") + Text(show, d.parts[1])
    ensures Meaning(d) == if d.Ors? then Or([Meaning(d.parts[0]), Meaning(d.parts[1])]) else And([Meaning(d.parts[0]), Meaning(d.parts[1])])
    ensures Parse(leaf, Text(show, d)) == Some(Meaning(d))
  {
    TwoParts(show, d);
    assert Fit(leaf, show, d);
    assert " " + "or" + " " == " or " && " " + "and" + " " == " and ";
    hide Parse, Printable, Text, Fit, Meaning;
    ParseText(leaf, show, d);
  }

  lemma TwoParts<C>(show: C -> string, d: Doc<C>)
    requires IsNode(d) && |d.parts| == 2
    ensures Text(show, d) == Text(show, d.parts[0]) + GlueOf(SepOf(d)) + Text(show, d.parts[1])
    ensures Meaning(d) == if d.Ors? then Or([Meaning(d.parts[0]), Meaning(d.parts[1])]) else And([Meaning(d.parts[0]), Meaning(d.parts[1])])
  {
    TextGlued(show, d);
    NodeMeaning(d);
    var xs := Texts(show, d.parts);
    assert xs[1..] == [xs[1]];
    assert Meanings(d.parts) == [Meaning(d.parts[0]), Meaning(d.parts[1])];
  }

  /** Logical nodes of a parsed tree have at least two children. */
  predicate Branching<C>(t: Tree<C>) {
    t.Leaf? || (|t.children| >= 2 && forall i :: 0 <= i < |t.children| ==> Branching(t.children[i]))
  }

  lemma {:induction false} ParsedBranching<C>(leaf: string -> Option<C>, text: string)
    requires Parse(leaf, text).Some?
    ensures Branching(Parse(leaf, text).value)
    decreases |text|
  {
    var s := Strip(text);
    var t := Parse(leaf, text).value;
    if !t.Leaf? {
      PartsShorter(OR, s);
      PartsShorter(Comma, s);
      PartsShorter(AND, s);
      var parts := if t.Or? then Split(OR, s) else if Build(leaf, Split(Comma, s), |s|).Some? then Split(Comma, s) else Split(AND, s);
      assert Build(leaf, parts, |s|) == Some(t.children);
      forall i | 0 <= i < |t.children| ensures Branching(t.children[i]) {
        assert Parse(leaf, parts[i]) == Some(t.children[i]);
        ParsedBranching(leaf, parts[i]);
      }
    }
  }
}
