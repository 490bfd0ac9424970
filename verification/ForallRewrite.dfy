/** The rewrite of `forall(A, B...)` into `not(A and not B)` on parsed rules. */
module ForallRewrite {

  import opened Wrappers

  // ---- Constraints ----

  datatype CompareOp =
    | NoOp | EQ | NE | GT | LT | GE | LE
    | HasFlag | Contains | NotContains | Matches | NotMatches | StartsWith | EndsWith | LengthIs
    | MemberOf | NotMemberOf | In | NotIn | ContainsKey | NotContainsKey

  /** `negate_compare_op`: operators without an opposite are returned unchanged. */
  function NegateOp(op: CompareOp): CompareOp {
    match op
    case EQ => NE
    case NE => EQ
    case GT => LE
    case LE => GT
    case GE => LT
    case LT => GE
    case _ => op
  }

  /** The right-hand side: a literal, or a field of an earlier binding. */
  datatype Operand<V> = Literal(v: V) | Bound(name: string)

  datatype Constraint<V> = Constraint(field: string, op: CompareOp, right: Operand<V>)

  /** How constraints are read on facts of type `F`: field values and fact types, the nil value,
      earlier bindings, the order on values, and the operators that are not orderings. */
  datatype Sem<!F, !V> = Sem(get: (F, string) -> V, typeOf: F -> string, nil: V, bound: string -> V, less: (V, V) -> bool, other: (CompareOp, V, V) -> bool)

  ghost predicate TotalOrder<V(!new)>(less: (V, V) -> bool) {
    && (forall a, b :: !(less(a, b) && less(b, a)))
    && (forall a, b :: less(a, b) || a == b || less(b, a))
    && (forall a, b, c :: less(a, b) && less(b, c) ==> less(a, c))
  }

  function OperandValue<F, V>(sem: Sem<F, V>, x: Operand<V>): V {
    match x
    case Literal(v) => v
    case Bound(name) => sem.bound(name)
  }

  /** A constraint without an operator asks for a value that is not nil. */
  predicate Meets<F, V(==)>(sem: Sem<F, V>, c: Constraint<V>, f: F) {
    var l, r := sem.get(f, c.field), OperandValue(sem, c.right);
    match c.op
    case NoOp => l != sem.nil
    case EQ => l == r
    case NE => l != r
    case LT => sem.less(l, r)
    case GT => sem.less(r, l)
    case LE => sem.less(l, r) || l == r
    case GE => sem.less(r, l) || l == r
    case _ => sem.other(c.op, l, r)
  }

  /** `negate_constraint` */
  function NegateConstraint<V>(c: Constraint<V>, nil: V): Constraint<V> {
    if c.op == NoOp then c.(op := EQ, right := Literal(nil)) else c.(op := NegateOp(c.op))
  }

  predicate HasOpposite(op: CompareOp) { op in {NoOp, EQ, NE, GT, LT, GE, LE} }

  /** A negated constraint says the opposite exactly if its operator has one; otherwise it says the
      same as before, on every fact. */
  lemma NegatedConstraint<F(!new), V(!new)>(sem: Sem<F, V>, c: Constraint<V>, f: F)
    requires TotalOrder(sem.less)
    ensures Meets(sem, NegateConstraint(c, sem.nil), f) == (Meets(sem, c, f) != HasOpposite(c.op))
  {
    var l, r := sem.get(f, c.field), OperandValue(sem, c.right);
    assert sem.less(l, r) || l == r || sem.less(r, l);
  }

  // ---- Constraint trees ----

  datatype Tree<V> = Leaf(c: Constraint<V>) | And(children: seq<Tree<V>>) | Or(children: seq<Tree<V>>)

  predicate Eval<F, V(==)>(sem: Sem<F, V>, t: Tree<V>, f: F) {
    match t
    case Leaf(c) => Meets(sem, c, f)
    case And(ts) => forall i :: 0 <= i < |ts| ==> Eval(sem, ts[i], f)
    case Or(ts) => exists i :: 0 <= i < |ts| && Eval(sem, ts[i], f)
  }

  /** What `negate_constraint_tree` makes of a tree. */
  function Negated<V>(t: Tree<V>, nil: V): (r: Tree<V>)
    ensures t.Leaf? <==> r.Leaf?
    ensures !t.Leaf? ==> |r.children| == |t.children|
  {
    match t
    case Leaf(c) => Leaf(NegateConstraint(c, nil))
    case And(ts) => Or(seq(|ts|, i requires 0 <= i < |ts| => Negated(ts[i], nil)))
    case Or(ts) => And(seq(|ts|, i requires 0 <= i < |ts| => Negated(ts[i], nil)))
  }

  /** The tree whose complement a negation produces: constraints without an opposite are read
      the wrong way round. */
  predicate Misread<F, V(==)>(sem: Sem<F, V>, t: Tree<V>, f: F) {
    match t
    case Leaf(c) => Meets(sem, c, f) == HasOpposite(c.op)
    case And(ts) => forall i :: 0 <= i < |ts| ==> Misread(sem, ts[i], f)
    case Or(ts) => exists i :: 0 <= i < |ts| && Misread(sem, ts[i], f)
  }

  /** De Morgan, for every tree and every fact. */
  lemma {:induction false} NegatedTree<F(!new), V(!new)>(sem: Sem<F, V>, t: Tree<V>, f: F)
    requires TotalOrder(sem.less)
    ensures Eval(sem, Negated(t, sem.nil), f) == !Misread(sem, t, f)
  {
    match t
    case Leaf(c) => NegatedConstraint(sem, c, f);
    case And(ts) =>
      forall i | 0 <= i < |ts| ensures Eval(sem, Negated(t, sem.nil).children[i], f) == !Misread(sem, ts[i], f) {
        NegatedTree(sem, ts[i], f);
      }
    case Or(ts) =>
      forall i | 0 <= i < |ts| ensures Eval(sem, Negated(t, sem.nil).children[i], f) == !Misread(sem, ts[i], f) {
        NegatedTree(sem, ts[i], f);
      }
  }

  /** Every operator in the tree has an opposite. */
  predicate Negatable<V>(t: Tree<V>) {
    match t
    case Leaf(c) => HasOpposite(c.op)
    case And(ts) => forall i :: 0 <= i < |ts| ==> Negatable(ts[i])
    case Or(ts) => forall i :: 0 <= i < |ts| ==> Negatable(ts[i])
  }

  lemma {:induction false} NotMisread<F(!new), V(!new)>(sem: Sem<F, V>, t: Tree<V>, f: F)
    requires Negatable(t)
    ensures Misread(sem, t, f) == Eval(sem, t, f)
  {
    if !t.Leaf? {
      forall i | 0 <= i < |t.children| ensures Misread(sem, t.children[i], f) == Eval(sem, t.children[i], f) {
        NotMisread(sem, t.children[i], f);
      }
    }
  }

  /** Negating a tree of orderings and existence checks flips its value on every fact. */
  lemma NegationFlips<F(!new), V(!new)>(sem: Sem<F, V>, t: Tree<V>, f: F)
    requires TotalOrder(sem.less) && Negatable(t)
    ensures Eval(sem, Negated(t, sem.nil), f) == !Eval(sem, t, f)
  {
    NegatedTree(sem, t, f);
    NotMisread(sem, t, f);
  }

  predicate NoExistenceCheck<V>(t: Tree<V>) {
    match t
    case Leaf(c) => c.op != NoOp
    case And(ts) => forall i :: 0 <= i < |ts| ==> NoExistenceCheck(ts[i])
    case Or(ts) => forall i :: 0 <= i < |ts| ==> NoExistenceCheck(ts[i])
  }

  /** Negating twice gives the tree back exactly if it holds no bare existence check. */
  lemma {:induction false} NegatedTwice<V(!new)>(t: Tree<V>, nil: V)
    ensures Negated(Negated(t, nil), nil) == t <==> NoExistenceCheck(t)
  {
    if !t.Leaf? {
      var n := Negated(t, nil);
      var twice := Negated(n, nil);
      forall i | 0 <= i < |t.children| ensures twice.children[i] == t.children[i] <==> NoExistenceCheck(t.children[i]) {
        assert n.children[i] == Negated(t.children[i], nil);
        NegatedTwice(t.children[i], nil);
      }
      assert twice == t <==> twice.children == t.children;
    }
  }

  // ---- Patterns ----

  datatype Kind = STANDARD | NOT | EXISTS | FORALL | EVAL | QUERY_CALL

  datatype Pattern<V> = Pattern(kind: Kind, factType: string, root: Option<Tree<V>>, nested: seq<Pattern<V>>, info: Option<seq<Pattern<V>>>)

  /** A forall with a base and at least one restriction. */
  predicate Expandable<V>(p: Pattern<V>) { p.kind == FORALL && p.info.Some? && |p.info.value| >= 2 }

  /** The constraints of the restrictions, in order. */
  function Roots<V>(ps: seq<Pattern<V>>): seq<Tree<V>> {
    if ps == [] then [] else (if ps[0].root.Some? then [ps[0].root.value] else []) + Roots(ps[1..])
  }

  function Violating<V>(base: Pattern<V>, denial: Tree<V>): Pattern<V> {
    base.(root := Some(if base.root.Some? then And([base.root.value, denial]) else denial))
  }

  function Rewrite<V>(p: Pattern<V>, nil: V): Pattern<V>
    requires Expandable(p)
  {
    var ps := p.info.value;
    p.(kind := NOT, nested := [Violating(ps[0], Negated(And(Roots(ps[1..])), nil))], info := None)
  }

  /** One pattern: nested patterns first, then the pattern itself. */
  function Expand<V>(p: Pattern<V>, nil: V): Pattern<V> {
    var inner := p.(nested := seq(|p.nested|, i requires 0 <= i < |p.nested| => Expand(p.nested[i], nil)));
    if Expandable(p) then Rewrite(inner, nil) else inner
  }

  function ExpandAll<V>(ps: seq<Pattern<V>>, nil: V): (r: seq<Pattern<V>>)
    ensures |r| == |ps| && forall i :: 0 <= i < |ps| ==> r[i] == Expand(ps[i], nil)
  {
    seq(|ps|, i requires 0 <= i < |ps| => Expand(ps[i], nil))
  }

  lemma {:induction false} RootsAppend<V>(ps: seq<Pattern<V>>, p: Pattern<V>)
    ensures Roots(ps + [p]) == Roots(ps) + (if p.root.Some? then [p.root.value] else [])
  {
    if ps == [] {
      assert ps + [p] == [p];
    } else {
      RootsAppend(ps[1..], p);
      assert (ps + [p])[1..] == ps[1..] + [p];
    }
  }

  method CollectRoots<V>(ps: seq<Pattern<V>>) returns (ts: seq<Tree<V>>)
    requires ps != []
    ensures ts == Roots(ps[1..])
  {
    ts := [];
    for i := 1 to |ps|
      invariant ts == Roots(ps[1..i])
    {
      RootsAppend(ps[1..i], ps[i]);
      assert ps[1..i + 1] == ps[1..i] + [ps[i]];
      if ps[i].root.Some? { ts := ts + [ps[i].root.value]; }
    }
    assert ps[1..|ps|] == ps[1..];
  }

  ghost function Size<V>(p: Pattern<V>): nat { 1 + SizeAll(p.nested) }

  ghost function SizeAll<V>(ps: seq<Pattern<V>>): nat {
    if ps == [] then 0 else Size(ps[0]) + SizeAll(ps[1..])
  }

  lemma {:induction false} SizeMember<V>(ps: seq<Pattern<V>>, i: nat)
    requires i < |ps|
    ensures Size(ps[i]) <= SizeAll(ps)
  {
    if i > 0 { SizeMember(ps[1..], i - 1); }
  }

  /** `expand_foralls_in_list` */
  method ExpandForalls<V>(patterns: seq<Pattern<V>>, nil: V) returns (r: seq<Pattern<V>>)
    ensures r == ExpandAll(patterns, nil) && |r| == |patterns|
    ensures forall k :: 0 <= k < |r| ==>
      (r[k].kind == FORALL <==> patterns[k].kind == FORALL && (patterns[k].info.None? || |patterns[k].info.value| < 2))
    decreases SizeAll(patterns)
  {
    r := patterns;
    for k := 0 to |patterns|
      invariant |r| == |patterns|
      invariant forall i :: 0 <= i < k ==> r[i] == Expand(patterns[i], nil)
      invariant forall i :: k <= i < |patterns| ==> r[i] == patterns[i]
    {
      SizeMember(patterns, k);
      var pattern := r[k];
      if pattern.nested != [] {
        var inner := ExpandForalls(pattern.nested, nil);
        pattern := pattern.(nested := inner);
      }
      assert pattern.nested == ExpandAll(patterns[k].nested, nil);
      if pattern.kind == FORALL && pattern.info.Some? && |pattern.info.value| >= 2 {
        var ps := pattern.info.value;
        var roots := CollectRoots(ps);
        var denial := Negated(And(roots), nil);
        pattern := pattern.(kind := NOT, nested := [Violating(ps[0], denial)], info := None);
      }
      r := r[k := pattern];
    }
    assert r == ExpandAll(patterns, nil);
  }

  /** The parts of an expanded pattern.  A forall with restrictions becomes a NOT of its base, which
      also asks that some restriction is broken; every other pattern changes in its nested ones only. */
  lemma ExpandedParts<V>(p: Pattern<V>, nil: V)
    ensures var e := Expand(p, nil);
      if p.kind == FORALL && p.info.Some? && |p.info.value| >= 2 then
        && e.kind == NOT && e.info == None && e.factType == p.factType && e.root == p.root && |e.nested| == 1
        && var base, bad := p.info.value[0], e.nested[0];
           && bad.kind == base.kind && bad.factType == base.factType && bad.nested == base.nested && bad.info == base.info && bad.root.Some?
           && if base.root.None? then Denies(bad.root.value, p.info.value, nil)
              else bad.root.value.And? && |bad.root.value.children| == 2 && bad.root.value.children[0] == base.root.value
                   && Denies(bad.root.value.children[1], p.info.value, nil)
      else
        && e.kind == p.kind && e.info == p.info && e.factType == p.factType && e.root == p.root
        && |e.nested| == |p.nested| && forall i :: 0 <= i < |e.nested| ==> e.nested[i] == Expand(p.nested[i], nil)
  {
    if p.kind == FORALL && p.info.Some? && |p.info.value| >= 2 {
      AllDenied(p.info.value, nil);
    }
  }

  /** An Or of the negated constraints of all patterns behind the first, in order. */
  predicate Denies<V(==)>(t: Tree<V>, ps: seq<Pattern<V>>, nil: V)
    requires ps != []
  {
    t.Or? && |t.children| == Constrained(ps[1..]) && forall i :: 1 <= i < |ps| && ps[i].root.Some? ==>
      Constrained(ps[1..i]) < |t.children| && t.children[Constrained(ps[1..i])] == Negated(ps[i].root.value, nil)
  }

  /** How many patterns have constraints. */
  function Constrained<V>(ps: seq<Pattern<V>>): nat {
    if ps == [] then 0 else Constrained(ps[..|ps| - 1]) + (if ps[|ps| - 1].root.Some? then 1 else 0)
  }

  lemma {:induction false} RootsCount<V>(ps: seq<Pattern<V>>, n: nat)
    requires n <= |ps|
    ensures |Roots(ps[..n])| == Constrained(ps[..n])
    ensures forall i :: 0 <= i < n && ps[i].root.Some? ==>
      Constrained(ps[..i]) < |Roots(ps[..n])| && Roots(ps[..n])[Constrained(ps[..i])] == ps[i].root.value
  {
    if n > 0 {
      RootsCount(ps, n - 1);
      assert ps[..n] == ps[..n - 1] + [ps[n - 1]] && ps[..n][..n - 1] == ps[..n - 1];
      RootsAppend(ps[..n - 1], ps[n - 1]);
    }
  }

  lemma AllDenied<V>(ps: seq<Pattern<V>>, nil: V)
    requires ps != []
    ensures Denies(Negated(And(Roots(ps[1..])), nil), ps, nil)
  {
    var rest := ps[1..];
    RootsCount(rest, |rest|);
    assert rest[..|rest|] == rest;
    forall i | 1 <= i < |ps| && ps[i].root.Some?
      ensures Constrained(ps[1..i]) < |Roots(rest)| && Roots(rest)[Constrained(ps[1..i])] == ps[i].root.value
    {
      assert rest[i - 1] == ps[i] && rest[..i - 1] == ps[1..i];
    }
  }

  // ---- Meaning ----

  predicate Satisfies<F, V(==)>(sem: Sem<F, V>, p: Pattern<V>, f: F) {
    sem.typeOf(f) == p.factType && (p.root.Some? ==> Eval(sem, p.root.value, f))
  }

  /** Every fact matching the base satisfies all restrictions. */
  ghost predicate ForallHolds<F(!new), V(!new)>(sem: Sem<F, V>, ps: seq<Pattern<V>>, facts: set<F>)
    requires |ps| >= 2
  {
    forall f :: f in facts && Satisfies(sem, ps[0], f) ==>
      forall i :: 1 <= i < |ps| && ps[i].root.Some? ==> Eval(sem, ps[i].root.value, f)
  }

  /** When a pattern holds on a set of facts; `eval` and query patterns are left open. */
  ghost predicate Holds<F(!new), V(!new)>(sem: Sem<F, V>, open: Pattern<V> -> bool, p: Pattern<V>, facts: set<F>) {
    match p.kind
    case STANDARD => exists f :: f in facts && Satisfies(sem, p, f)
    case NOT => if p.nested == [] then !exists f :: f in facts && Satisfies(sem, p, f) else !AllHold(sem, open, p.nested, facts)
    case EXISTS => if p.nested == [] then exists f :: f in facts && Satisfies(sem, p, f) else AllHold(sem, open, p.nested, facts)
    case FORALL => if p.info.Some? && |p.info.value| >= 2 then ForallHolds(sem, p.info.value, facts) else open(p.(nested := []))
    case _ => open(p.(nested := []))
  }

  ghost predicate AllHold<F(!new), V(!new)>(sem: Sem<F, V>, open: Pattern<V> -> bool, ps: seq<Pattern<V>>, facts: set<F>) {
    forall i :: 0 <= i < |ps| ==> Holds(sem, open, ps[i], facts)
  }

  /** Every forall in reach has a plain base and restrictions that can be negated. */
  predicate Plain<V>(p: Pattern<V>) {
    && (forall i :: 0 <= i < |p.nested| ==> Plain(p.nested[i]))
    && (p.kind == FORALL && p.info.Some? && |p.info.value| >= 2 ==> p.info.value[0].kind == STANDARD && forall i :: 1 <= i < |p.info.value| && p.info.value[i].root.Some? ==> Negatable(p.info.value[i].root.value))
  }

  lemma {:induction false} RootsMembers<V(!new)>(ps: seq<Pattern<V>>)
    ensures forall t :: t in Roots(ps) <==> exists i :: 0 <= i < |ps| && ps[i].root == Some(t)
  {
    if ps != [] {
      RootsMembers(ps[1..]);
      forall t ensures t in Roots(ps) <==> exists i :: 0 <= i < |ps| && ps[i].root == Some(t) {
        if i :| 0 <= i < |ps[1..]| && ps[1..][i].root == Some(t) { assert ps[i + 1].root == Some(t); }
        if i :| 0 <= i < |ps| && ps[i].root == Some(t) {
          if i > 0 { assert ps[1..][i - 1].root == Some(t); }
        }
      }
    }
  }

  /** The violating pattern matches exactly the facts that match the base and break a restriction,
      as the negation reads it. */
  lemma ViolatingMatches<F(!new), V(!new)>(sem: Sem<F, V>, ps: seq<Pattern<V>>, f: F)
    requires TotalOrder(sem.less) && |ps| >= 2
    ensures Satisfies(sem, Violating(ps[0], Negated(And(Roots(ps[1..])), sem.nil)), f) <==>
      Satisfies(sem, ps[0], f) && exists i :: 1 <= i < |ps| && ps[i].root.Some? && !Misread(sem, ps[i].root.value, f)
  {
    var ts := Roots(ps[1..]);
    NegatedTree(sem, And(ts), f);
    BrokenRestriction(sem, ps, f);
    ViolatingRoot(sem, ps[0], Negated(And(ts), sem.nil), f);
  }

  lemma ViolatingRoot<F(!new), V(!new)>(sem: Sem<F, V>, base: Pattern<V>, denial: Tree<V>, f: F)
    ensures Satisfies(sem, Violating(base, denial), f) <==> Satisfies(sem, base, f) && Eval(sem, denial, f)
  {
    if base.root.Some? {
      var both := And([base.root.value, denial]);
      assert both.children[0] == base.root.value && both.children[1] == denial;
      assert Eval(sem, both, f) <==> Eval(sem, both.children[0], f) && Eval(sem, both.children[1], f);
    }
  }

  lemma BrokenRestriction<F(!new), V(!new)>(sem: Sem<F, V>, ps: seq<Pattern<V>>, f: F)
    requires ps != []
    ensures !Misread(sem, And(Roots(ps[1..])), f) <==> exists i :: 1 <= i < |ps| && ps[i].root.Some? && !Misread(sem, ps[i].root.value, f)
  {
    var ts := Roots(ps[1..]);
    RootsMembers(ps[1..]);
    if !Misread(sem, And(ts), f) {
      var k :| 0 <= k < |ts| && !Misread(sem, ts[k], f);
      assert ts[k] in ts;
      var i :| 0 <= i < |ps[1..]| && ps[1..][i].root == Some(ts[k]);
      assert ps[i + 1].root == Some(ts[k]);
    }
    if i :| 1 <= i < |ps| && ps[i].root.Some? && !Misread(sem, ps[i].root.value, f) {
      assert ps[1..][i - 1].root == Some(ps[i].root.value);
      assert ps[i].root.value in ts;
      var k :| 0 <= k < |ts| && ts[k] == ps[i].root.value;
    }
  }

  /** What the rewritten pattern says, for all operators: the forall with every restriction read
      as the negation reads it. */
  lemma RewriteMeaning<F(!new), V(!new)>(sem: Sem<F, V>, open: Pattern<V> -> bool, p: Pattern<V>, facts: set<F>)
    requires TotalOrder(sem.less) && Expandable(p) && p.info.value[0].kind == STANDARD
    ensures Holds(sem, open, Rewrite(p, sem.nil), facts) <==>
      forall f :: f in facts && Satisfies(sem, p.info.value[0], f) ==>
        forall i :: 1 <= i < |p.info.value| && p.info.value[i].root.Some? ==> Misread(sem, p.info.value[i].root.value, f)
  {
    var ps := p.info.value;
    var bad := Violating(ps[0], Negated(And(Roots(ps[1..])), sem.nil));
    forall f ensures Satisfies(sem, bad, f) <==> Satisfies(sem, ps[0], f) && exists i :: 1 <= i < |ps| && ps[i].root.Some? && !Misread(sem, ps[i].root.value, f) {
      ViolatingMatches(sem, ps, f);
    }
    hide Satisfies, Misread, Violating;
    assert bad.kind == STANDARD by { BaseKind(ps[0], Negated(And(Roots(ps[1..])), sem.nil)); }
    OneNested(sem, open, Rewrite(p, sem.nil), bad, facts);
  }

  /** The rewritten pattern holds exactly if the forall does, on every set of facts. */
  lemma RewriteKeepsMeaning<F(!new), V(!new)>(sem: Sem<F, V>, open: Pattern<V> -> bool, p: Pattern<V>, facts: set<F>)
    requires TotalOrder(sem.less) && Expandable(p) && p.info.value[0].kind == STANDARD
    requires forall i :: 1 <= i < |p.info.value| && p.info.value[i].root.Some? ==> Negatable(p.info.value[i].root.value)
    ensures Holds(sem, open, Rewrite(p, sem.nil), facts) <==> ForallHolds(sem, p.info.value, facts)
  {
    hide Holds, Misread, Eval, Negatable, Satisfies, Rewrite;
    RewriteMeaning(sem, open, p, facts);
    var ps := p.info.value;
    forall f, i | 1 <= i < |ps| && ps[i].root.Some? ensures Misread(sem, ps[i].root.value, f) == Eval(sem, ps[i].root.value, f) {
      NotMisread(sem, ps[i].root.value, f);
    }
  }

  /** With a single restriction of a single constraint the rewrite is right on all sets of facts
      exactly if the operator has an opposite; the fact `g` only shows that the base is not idle. */
  lemma RightIffOpposite<F(!new), V(!new)>(sem: Sem<F, V>, open: Pattern<V> -> bool, p: Pattern<V>, c: Constraint<V>, g: F)
    requires TotalOrder(sem.less) && Expandable(p) && |p.info.value| == 2 && p.info.value[0].kind == STANDARD
    requires p.info.value[1].root == Some(Leaf(c)) && Satisfies(sem, p.info.value[0], g)
    ensures (forall facts: set<F> :: Holds(sem, open, Rewrite(p, sem.nil), facts) <==> ForallHolds(sem, p.info.value, facts)) <==> HasOpposite(c.op)
  {
    var ps := p.info.value;
    assert Negatable(ps[1].root.value) == HasOpposite(c.op);
    if HasOpposite(c.op) {
      forall facts: set<F> ensures Holds(sem, open, Rewrite(p, sem.nil), facts) <==> ForallHolds(sem, ps, facts) {
        RewriteKeepsMeaning(sem, open, p, facts);
      }
    } else {
      RewriteMeaning(sem, open, p, {g});
      assert Misread(sem, ps[1].root.value, g) != Eval(sem, ps[1].root.value, g);
      hide Holds, Rewrite, Satisfies, Misread, Eval;
      assert ForallHolds(sem, ps, {g}) <==> Eval(sem, ps[1].root.value, g);
      assert Holds(sem, open, Rewrite(p, sem.nil), {g}) <==> Misread(sem, ps[1].root.value, g);
    }
  }

  lemma OneNested<F(!new), V(!new)>(sem: Sem<F, V>, open: Pattern<V> -> bool, p: Pattern<V>, q: Pattern<V>, facts: set<F>)
    requires p.kind == NOT && p.nested == [q]
    ensures Holds(sem, open, p, facts) <==> !Holds(sem, open, q, facts)
  {
    assert p.nested[0] == q;
    assert AllHold(sem, open, p.nested, facts) <==> Holds(sem, open, p.nested[0], facts);
  }

  /** Expansion, written with the expanded list. */
  lemma ExpandStep<V>(p: Pattern<V>, nil: V)
    ensures var inner := p.(nested := ExpandAll(p.nested, nil)); Expand(p, nil) == if Expandable(p) then Rewrite(inner, nil) else inner
  {
    assert ExpandAll(p.nested, nil) == seq(|p.nested|, i requires 0 <= i < |p.nested| => Expand(p.nested[i], nil));
  }

  lemma BaseKind<V(!new)>(base: Pattern<V>, denial: Tree<V>)
    ensures Violating(base, denial).kind == base.kind
  {
  }

  /** Expanding all foralls, at every depth, changes the truth of no pattern. */
  lemma {:induction false} ExpandKeepsMeaning<F(!new), V(!new)>(sem: Sem<F, V>, open: Pattern<V> -> bool, p: Pattern<V>, facts: set<F>)
    requires TotalOrder(sem.less) && Plain(p)
    ensures Holds(sem, open, Expand(p, sem.nil), facts) <==> Holds(sem, open, p, facts)
  {
    var nested := ExpandAll(p.nested, sem.nil);
    forall i | 0 <= i < |p.nested| ensures Holds(sem, open, nested[i], facts) <==> Holds(sem, open, p.nested[i], facts) {
      ExpandKeepsMeaning(sem, open, p.nested[i], facts);
    }
    var inner := p.(nested := nested);
    ExpandStep(p, sem.nil);
    if Expandable(p) {
      RewriteKeepsMeaning(sem, open, inner, facts);
    }
  }

  // ---- What is left over ----

  /** A forall with a base and a restriction, here or in nested patterns. */
  predicate HasForall<V>(p: Pattern<V>) {
    (p.kind == FORALL && p.info.Some? && |p.info.value| >= 2) || exists i :: 0 <= i < |p.nested| && HasForall(p.nested[i])
  }

  /** Some forall in reach has a base that is, or holds, another one. */
  predicate ForallInBase<V>(p: Pattern<V>) {
    if p.kind == FORALL && p.info.Some? && |p.info.value| >= 2 then HasForall(p.info.value[0]) else exists i :: 0 <= i < |p.nested| && ForallInBase(p.nested[i])
  }

  /** One pass leaves no forall behind, except inside the base of another. */
  lemma {:induction false} LeftoverForalls<V(!new)>(p: Pattern<V>, nil: V)
    ensures HasForall(Expand(p, nil)) <==> ForallInBase(p)
  {
    var nested := ExpandAll(p.nested, nil);
    forall i | 0 <= i < |p.nested| ensures HasForall(nested[i]) <==> ForallInBase(p.nested[i]) {
      LeftoverForalls(p.nested[i], nil);
    }
    if Expandable(p) {
      var base := p.info.value[0];
      var r := Expand(p, nil);
      assert r.nested[0].(root := base.root) == base;
      SameForalls(r.nested[0], base);
      assert HasForall(r) <==> HasForall(r.nested[0]);
    } else {
      ExpandStep(p, nil);
    }
  }

  lemma SameForalls<V(!new)>(a: Pattern<V>, b: Pattern<V>)
    requires a.(root := b.root) == b
    ensures HasForall(a) <==> HasForall(b)
  {
    assert a.nested == b.nested && a.kind == b.kind && a.info == b.info;
  }

  // ---- The tree as objects ----

  datatype NodeType = LEAF | AND | OR

  /** A `ConstraintNode` owns its children; negation rewrites types and constraints in place. */
  class Node<V> {
    var kind: NodeType
    var constraint: Constraint<V>
    var children: seq<Node<V>>
    ghost var Repr: set<Node<V>>

    /** Children lie inside this node's footprint, apart from each other. */
    ghost predicate Owns()
      reads this, Repr
    {
      && this in Repr && (kind == LEAF ==> children == [])
      && (forall i :: 0 <= i < |children| ==> children[i] in Repr && children[i].Repr < Repr && this !in children[i].Repr)
      && (forall i, j :: 0 <= i < j < |children| ==> children[i].Repr !! children[j].Repr)
    }

    ghost predicate Valid()
      reads this, Repr
      decreases Repr
    {
      Owns() && forall i :: 0 <= i < |children| ==> children[i].Valid()
    }

    /** The tree this node is the root of. */
    ghost function View(): Tree<V>
      requires Valid()
      reads this, Repr
      decreases Repr, 1
    {
      match kind
      case LEAF => Leaf(constraint)
      case AND => And(Views(|children|))
      case OR => Or(Views(|children|))
    }

    ghost function Views(n: nat): (r: seq<Tree<V>>)
      requires Valid() && n <= |children|
      reads this, Repr
      ensures |r| == n && forall i :: 0 <= i < n ==> r[i] == children[i].View()
      decreases Repr, 0, n
    {
      if n == 0 then [] else Views(n - 1) + [children[n - 1].View()]
    }

    constructor (kind: NodeType, c: Constraint<V>)
      ensures Valid() && fresh(Repr) && children == [] && this.kind == kind && constraint == c
    {
      this.kind, constraint, children := kind, c, [];
      Repr := {this};
    }

    /** `negate_constraint_tree` */
    method Negate(nil: V)
      requires Valid()
      modifies Repr
      ensures Valid() && Repr == old(Repr) && View() == Negated(old(View()), nil)
      decreases Repr, 2
    {
      if kind == LEAF {
        constraint := NegateConstraint(constraint, nil);
        return;
      }
      ghost var views := Views(|children|);
      kind := if kind == AND then OR else AND;
      assert Valid() && Views(|children|) == views;
      NegateChildren(nil);
      NegatedChildren(old(View()), views, Views(|children|), nil);
      hide Valid, Negated;
    }

    /** The loop over the children. */
    method NegateChildren(nil: V)
      requires Valid() && kind != LEAF
      modifies Repr - {this}
      ensures Valid() && forall i :: 0 <= i < |children| ==> Views(|children|)[i] == Negated(old(Views(|children|))[i], nil)
      decreases Repr, 1
    {
      hide Negated;
      for k := 0 to |children|
        invariant Owns() && forall i :: 0 <= i < |children| ==> children[i].Valid() && children[i].Repr == old(children[i].Repr)
        invariant forall i :: 0 <= i < k ==> children[i].View() == Negated(old(children[i].View()), nil)
        invariant forall i :: k <= i < |children| ==> children[i].View() == old(children[i].View())
      {
        hide *;
        NegateChild(k, nil);
      }
    }

    method NegateChild(k: nat, nil: V)
      requires Owns() && k < |children| && forall i :: 0 <= i < |children| ==> children[i].Valid()
      modifies children[k].Repr
      ensures Owns() && forall i :: 0 <= i < |children| ==> children[i].Valid() && children[i].Repr == old(children[i].Repr)
      ensures children[k].View() == Negated(old(children[k].View()), nil)
      ensures forall i :: 0 <= i < |children| && i != k ==> children[i].View() == old(children[i].View())
      decreases Repr, 0
    {
      assert forall i :: 0 <= i < |children| ==> children[i] in children[i].Repr;
      hide Valid, View, Negated;
      children[k].Negate(nil);
    }
  }

  lemma NegatedChildren<V>(t: Tree<V>, before: seq<Tree<V>>, after: seq<Tree<V>>, nil: V)
    requires !t.Leaf? && t.children == before && |after| == |before|
    requires forall i :: 0 <= i < |before| ==> after[i] == Negated(before[i], nil)
    ensures Negated(t, nil) == if t.And? then Or(after) else And(after)
  {
    assert Negated(t, nil).children == after;
  }
}
