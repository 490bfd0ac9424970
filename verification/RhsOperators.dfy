/** Two variables joined by an operator, as a value: which operators are accepted. */
module RhsOperators {
  import opened RhsLexer
  import opened RhsPrint
  import opened RhsGrammar
  import opened ExpressionRefs
  import opened RhsScope
  import opened RhsActions
  import opened RhsStatements

  /** `a op b` */
  function Pair(a: string, level: nat, op: Type, b: string): ValueForm {
    Computed(Chain(level, Name(Var(a), []), [Operand(Word(op), Name(Var(b), []))]))
  }

  function PairText(a: string, s: string, b: string): string { a + " " + s + " " + b }

  predicate Telling(c: char) { c in {'+', '-', '*', '/', '>', '<', '!', '='} }

  lemma PairIs(a: string, level: nat, op: Type, b: string)
    requires OperatorAt(level, op)
    ensures var w := Pair(a, level, op, b).e; Full(w) && ExprTokens(w) == [Var(a), Word(op), Var(b)] && ExprText(w) == PairText(a, Spelling(op), b)
  {
    var x, y := Name(Var(a), []), Name(Var(b), []);
    var ops := [Operand(Word(op), y)];
    var w := Chain(level, x, ops);
    hide Spelling;
    assert ExprTokens(x) == [Var(a)] && ExprTokens(y) == [Var(b)] && ExprText(x) == a && ExprText(y) == b;
    assert ops[1..] == [] && OpsTokens([]) == [];
    assert OpsTokens(ops) == [Word(op)] + [Var(b)];
    assert OpsText(a, ops) == OpsText(a + OperandText(ops[0]), []) == a + OperandText(ops[0]);
    assert a + (" " + Spelling(op) + " " + b) == PairText(a, Spelling(op), b);
    assert At(x, level + 1) && At(y, level + 1) && At(w, 0);
  }

  /** The characters of an operator, and those that tell it from a reference. */
  lemma OperatorChars(level: nat, op: Type)
    requires OperatorAt(level, op)
    ensures var s := Spelling(op); s != "" && (forall k :: 0 <= k < |s| ==> !IsNameChar(s[k]) && s[k] != '$' && s[k] != '.')
    ensures op in {MOD, CARET, AND, OR} <==> forall k :: 0 <= k < |Spelling(op)| ==> !Telling(Spelling(op)[k])
  {
    OperatorTable(level, op);
    hide OperatorAt;
    if op in {MOD, CARET, AND, OR} { LogicalChars(op); } else if op in {PLUS, MINUS, STAR, SLASH} { SumChars(op); } else { ComparedChars(op); }
  }

  predicate Sign(s: string) { s != "" && forall k :: 0 <= k < |s| ==> !IsNameChar(s[k]) && s[k] != '$' && s[k] != '.' }

  lemma LogicalChars(op: Type)
    requires op in {MOD, CARET, AND, OR}
    ensures Sign(Spelling(op)) && forall k :: 0 <= k < |Spelling(op)| ==> !Telling(Spelling(op)[k])
  {
  }

  lemma SumChars(op: Type)
    requires op in {PLUS, MINUS, STAR, SLASH}
    ensures Sign(Spelling(op)) && Telling(Spelling(op)[0])
  {
  }

  lemma ComparedChars(op: Type)
    requires op in {GT, LT, GE, LE, EQ, NE}
    ensures Sign(Spelling(op)) && Telling(Spelling(op)[0])
  {
  }

  /** Where a character of the text comes from. */
  lemma PairChars(a: string, s: string, b: string, i: nat)
    requires i < |PairText(a, s, b)|
    ensures var e, n := PairText(a, s, b), |a| + |s| + 2;
      && (i < |a| ==> e[i] == a[i]) && (i == |a| || i == n - 1 ==> e[i] == ' ')
      && (|a| < i < n - 1 ==> e[i] == s[i - |a| - 1]) && (i >= n ==> e[i] == b[i - n])
  {
  }

  lemma NameChar(a: string, i: nat)
    requires IsVariableName(a) && i < |a|
    ensures !Telling(a[i]) && a[i] != '.' && a[i] != ' ' && (a[i] == '$' <==> i == 0)
  {
    if i > 0 { assert a[1..][i - 1] == a[i] && IsNameChar(a[i]); }
  }

  /** The text is taken as a reference iff no character of the operator tells. */
  lemma PairReference(a: string, s: string, b: string)
    requires IsVariableName(a) && IsVariableName(b)
    ensures IsReferenceText(PairText(a, s, b)) <==> forall k :: 0 <= k < |s| ==> !Telling(s[k])
  {
    var e := PairText(a, s, b);
    PairChars(a, s, b, 0);
    hide PairText, IsVariableName;
    NameChar(a, 0);
    forall i | 0 <= i < |e| && Telling(e[i]) ensures exists k :: 0 <= k < |s| && Telling(s[k]) {
      PairChars(a, s, b, i);
      PairLength(a, s, b);
      var n := |a| + |s| + 2;
      if i < |a| { NameChar(a, i); }
      if i >= n { NameChar(b, i - n); }
      assert Telling(s[i - |a| - 1]);
    }
    forall k | 0 <= k < |s| && Telling(s[k]) ensures exists i :: 0 <= i < |e| && Telling(e[i]) {
      PairLength(a, s, b);
      PairChars(a, s, b, |a| + 1 + k);
    }
  }

  lemma PairLength(a: string, s: string, b: string)
    ensures |PairText(a, s, b)| == |a| + |s| + 2 + |b|
  {
  }

  /** Taken as a reference, the text names no variable. */
  lemma PairIsNoName(a: string, s: string, b: string)
    requires IsVariableName(a) && IsVariableName(b) && forall k :: 0 <= k < |s| ==> s[k] != '.'
    ensures !IsVariableName(Base(PairText(a, s, b)))
  {
    var e := PairText(a, s, b);
    PairLength(a, s, b);
    forall i | 0 <= i < |e| ensures e[i] != '.' {
      PairChars(a, s, b, i);
      if i < |a| { NameChar(a, i); }
      if i >= |a| + |s| + 2 { NameChar(b, i - (|a| + |s| + 2)); }
    }
    hide PairText;
    BaseOf(e, "");
    assert e + "" == e;
    PairChars(a, s, b, |a|);
    if IsVariableName(e) { NameChar(e, |a|); }
  }

  /** Taken as an expression, the text refers to the two variables. */
  lemma PairRefs(a: string, s: string, b: string, available: set<string>)
    requires IsVariableName(a) && IsVariableName(b) && a in available && b in available
    requires forall k :: 0 <= k < |s| ==> s[k] != '$'
    ensures RefsOk(PairText(a, s, b), available)
  {
    var e, n := PairText(a, s, b), |a| + |s| + 2;
    FirstOccurs(a, s, b);
    SecondOccurs(a, s, b);
    hide PairText, BaseAt, IsVariableName, OccursAt;
    OccursBase(e, 0, a);
    OccursBase(e, n, b);
    PairLength(a, s, b);
    forall i | 0 <= i < |e| && e[i] == '$' ensures i == 0 || i == n {
      PairChars(a, s, b, i);
      if i < |a| { NameChar(a, i); }
      if i >= n { NameChar(b, i - n); }
    }
  }

  lemma FirstOccurs(a: string, s: string, b: string)
    ensures OccursAt(PairText(a, s, b), 0, a)
  {
    var e, more := PairText(a, s, b), " " + s + " " + b;
    assert e == a + more;
    assert e[0..0 + |a|] == a && e[0 + |a|..] == more && more[0] == ' ';
  }

  lemma SecondOccurs(a: string, s: string, b: string)
    ensures OccursAt(PairText(a, s, b), |a| + |s| + 2, b)
  {
    var e, before := PairText(a, s, b), a + " " + s + " ";
    assert |before| == |a| + |s| + 2 && e == before + b;
    assert e[|before|..|before| + |b|] == b && e[|before| + |b|..] == "";
  }

  /** With both variables declared, the pair is accepted as a value iff the operator is none of `%`,
      `^`, `&&` and `||`: with those, the whole text is taken as the name of one variable. */
  lemma OperatorAccepted(a: string, level: nat, op: Type, b: string, sc: Scope, known: string -> bool)
    requires IsVariableName(a) && IsVariableName(b) && OperatorAt(level, op)
    requires a in Sources(sc) && b in Sources(sc) && forall x :: x in Sources(sc) ==> IsVariableName(x)
    ensures ProperValue(Pair(a, level, op, b))
    ensures GoodValue(Pair(a, level, op, b), sc, known) <==> op !in {MOD, CARET, AND, OR}
  {
    var s := Spelling(op);
    PairIs(a, level, op, b);
    OperatorChars(level, op);
    hide OperatorAt, IsVariableName, PairText, IsReferenceText, RefsOk, Base, Full, Telling, Sources, ExprTokens, ExprText, Pair, Spelling;
    PairReference(a, s, b);
    PairRefs(a, s, b, Sources(sc));
    PairIsNoName(a, s, b);
    PairKind(a, level, op, b);
  }

  lemma PairKind(a: string, level: nat, op: Type, b: string)
    ensures Pair(a, level, op, b).Computed?
  {
  }
}
