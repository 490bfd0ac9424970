/** From tokens to references: what checking an emitted text says about the tokens behind it. */
module RhsScope {
  import opened Characters
  import opened RhsLexer
  import opened RhsText
  import opened ExpressionRefs

  /** A variable token with a name; a lone `$` has none. */
  predicate IsReference(t: Token) { t.kind == VARIABLE && t.text != "$" }

  predicate IsVariableName(s: string) { |s| >= 2 && s[0] == '$' && AllNameChars(s[1..]) }

  lemma ReferenceName(t: Token)
    requires TokenOk(t) && IsReference(t)
    ensures IsVariableName(t.text)
  {
    assert |t.text| == 1 ==> t.text == "$";
  }

  // ---- A name standing in a text ----

  predicate OccursAt(e: string, i: nat, name: string) {
    i + |name| <= |e| && e[i..i + |name|] == name && EndsName(e[i + |name|..])
  }

  predicate Occurs(e: string, name: string) { exists i :: 0 <= i <= |e| && OccursAt(e, i, name) }

  /** A name standing in a text is the reference at its place. */
  lemma OccursBase(e: string, i: nat, name: string)
    requires OccursAt(e, i, name) && IsVariableName(name)
    ensures i < |e| && e[i] == '$' && BaseAt(e, i) == name
  {
    var t, rest := e[i..], e[i + |name|..];
    assert e[i] == e[i..i + |name|][0] == '$';
    assert t == name + rest && t[1..] == name[1..] + rest;
    NameRunOf(name[1..], rest);
    assert IsNameChar(name[1..][0]) && t[1..][0] == name[1..][0];
    assert !IsSpace(t[1..][0]) by { NoSpaceInNames(t[1..][0]); }
    assert SpaceRun(t[1..]) == 0;
    assert t[1..][0..] == t[1..];
    assert t[1..][0..|name| - 1] == name[1..];
    assert "$" + name[1..] == name;
  }

  lemma NoSpaceInNames(c: char)
    requires IsNameChar(c)
    ensures !IsSpace(c)
  {
  }

  lemma OccursAppend(e: string, name: string, s: string)
    requires Occurs(e, name) && EndsName(s)
    ensures Occurs(e + s, name)
  {
    var i :| 0 <= i <= |e| && OccursAt(e, i, name);
    assert (e + s)[i..i + |name|] == e[i..i + |name|];
    assert (e + s)[i + |name|..] == e[i + |name|..] + s;
    assert OccursAt(e + s, i, name);
  }

  lemma OccursPrepend(p: string, e: string, name: string)
    requires Occurs(e, name)
    ensures Occurs(p + e, name)
  {
    var i :| 0 <= i <= |e| && OccursAt(e, i, name);
    var j := |p| + i;
    assert (p + e)[j..j + |name|] == e[i..i + |name|];
    assert (p + e)[j + |name|..] == e[i + |name|..];
    assert OccursAt(p + e, j, name);
  }

  // ---- Every variable token stands in the emitted text ----

  ghost predicate Mentions(e: string, ts: seq<Token>) {
    forall k :: 0 <= k < |ts| && IsReference(ts[k]) ==> Occurs(e, ts[k].text)
  }

  lemma MentionsAppend(e: string, ts: seq<Token>, s: string)
    requires Mentions(e, ts) && EndsName(s)
    ensures Mentions(e + s, ts)
  {
    hide Occurs;
    forall k | 0 <= k < |ts| && IsReference(ts[k]) ensures Occurs(e + s, ts[k].text) { OccursAppend(e, ts[k].text, s); }
  }

  lemma MentionsPrepend(p: string, e: string, ts: seq<Token>)
    requires Mentions(e, ts)
    ensures Mentions(p + e, ts)
  {
    hide Occurs;
    forall k | 0 <= k < |ts| && IsReference(ts[k]) ensures Occurs(p + e, ts[k].text) { OccursPrepend(p, e, ts[k].text); }
  }

  lemma MentionsBoth(e: string, ts: seq<Token>, us: seq<Token>)
    requires Mentions(e, ts) && Mentions(e, us)
    ensures Mentions(e, ts + us)
  {
    hide Occurs;
  }

  lemma MentionsNone(e: string, ts: seq<Token>)
    requires forall k :: 0 <= k < |ts| ==> ts[k].kind != VARIABLE
    ensures Mentions(e, ts)
  {
  }

  /** Two texts with something between them that does not continue a name. */
  lemma MentionsJoined(a: string, ts: seq<Token>, mid: string, t: Token, b: string, us: seq<Token>)
    requires Mentions(a, ts) && Mentions(b, us) && mid != "" && EndsName(mid) && t.kind != VARIABLE
    ensures Mentions(a + mid + b, ts + [t] + us)
  {
    hide Mentions;
    MentionsAppend(a, ts, mid + b);
    assert a + (mid + b) == a + mid + b;
    MentionsPrepend(a + mid, b, us);
    MentionsNone(a + mid + b, [t]);
    MentionsBoth(a + mid + b, ts, [t]);
    MentionsBoth(a + mid + b, ts + [t], us);
  }

  lemma MentionsWrapped(p: string, e: string, ts: seq<Token>, s: string)
    requires Mentions(e, ts) && EndsName(s)
    ensures Mentions(p + e + s, ts)
  {
    hide Mentions;
    MentionsPrepend(p, e, ts);
    MentionsAppend(p + e, ts, s);
  }

  lemma MentionsWord(t: Token)
    ensures Mentions(t.text, [t])
  {
    assert t.text[0..0 + |t.text|] == t.text && t.text[|t.text|..] == "";
    assert OccursAt(t.text, 0, t.text);
  }

  /** When the text passes the check, every variable token with a name is available. */
  lemma MentionsChecked(e: string, ts: seq<Token>, available: set<string>)
    requires Mentions(e, ts) && RefsOk(e, available) && forall k :: 0 <= k < |ts| ==> TokenOk(ts[k])
    ensures InScope(ts, available)
  {
    forall k | 0 <= k < |ts| && IsReference(ts[k]) ensures ts[k].text in available {
      ReferenceName(ts[k]);
      assert Occurs(e, ts[k].text);
      var i :| 0 <= i <= |e| && OccursAt(e, i, ts[k].text);
      hide BaseAt, OccursAt;
      OccursBase(e, i, ts[k].text);
    }
  }

  ghost predicate InScope(ts: seq<Token>, available: set<string>) {
    forall k :: 0 <= k < |ts| && IsReference(ts[k]) ==> ts[k].text in available
  }

  // ---- Conditions of one token ----

  /** What the parser emits for a single variable or string. */
  function AtomText(t: Token): string { if t.kind == STRING then Quoted(t.text) else t.text }

  /** A lone `$` passes the check whatever is declared. */
  lemma LoneDollarPasses(available: set<string>)
    ensures RefsOk("$", available)
  {
    assert "$"[0..][1..] == "";
  }

  /** A variable token passes the check exactly if it is a lone `$` or is declared. */
  lemma VariablePasses(t: Token, available: set<string>)
    requires TokenOk(t) && t.kind == VARIABLE
    ensures RefsOk(t.text, available) <==> t.text == "$" || t.text in available
  {
    if t.text == "$" {
      LoneDollarPasses(available);
    } else {
      ReferenceName(t);
      OnlyReference(t.text, t.text, 0, available);
    }
  }

  /** So does a string literal whose contents are a variable's name. */
  lemma QuotedVariablePasses(name: string, available: set<string>)
    requires IsVariableName(name)
    ensures RefsOk(Quoted(name), available) <==> name in available
  {
    OnlyReference(Quoted(name), name, 1, available);
  }

  /** A text in which the only dollar sign starts the name. */
  lemma OnlyReference(e: string, name: string, i: nat, available: set<string>)
    requires IsVariableName(name) && OccursAt(e, i, name) && forall k :: 0 <= k < |e| && e[k] == '$' ==> k == i
    ensures RefsOk(e, available) <==> name in available
  {
    OccursBase(e, i, name);
    hide BaseAt;
  }

  // ---- Two short programs ----

  /** Any word, keyword or not. */
  lemma LexWord(text: string, rest: string)
    requires text != "" && (IsAlpha(text[0]) || text[0] == '_') && AllNameChars(text) && EndsName(rest)
    ensures Lex(text + rest) == [Token(KeywordType(text), text)] + Lex(rest)
  {
    var s := text + rest;
    assert s[..|text|] == text && s[|text|..] == rest && s[0] == text[0];
    NameRunOf(text, rest);
    NextHere(s);
    hide Lex, NameRun, KeywordType;
    assert ScanHere(s) == Lexeme(Token(KeywordType(text), text), rest);
  }

  lemma LexBrace(t: Token, rest: string)
    requires t == Token(LBRACE, "{") || t == Token(RBRACE, "}")
    ensures Lex(t.text + rest) == [t] + Lex(rest)
  {
    var s := t.text + rest;
    assert s[0] == t.text[0] && s[1..] == rest;
    if |s| >= 2 { BraceNotPair(s[..2]); }
    NextHere(s);
    hide PairType, Lex;
    assert ScanHere(s) == Lexeme(t, rest);
  }

  lemma BraceNotPair(two: string)
    requires |two| == 2 && (two[0] == '{' || two[0] == '}')
    ensures PairType(two) == ERROR
  {
  }

  /** ` { halt }` */
  lemma HaltTokens()
    ensures Lex(" { halt }") == [Token(LBRACE, "{"), Token(HALT, "halt"), Token(RBRACE, "}")]
  {
    hide Lex, KeywordType;
    assert " { halt }" == " " + ("{" + (" " + ("halt" + (" " + ("}" + "")))));
    LexBlank("{" + (" " + ("halt" + (" " + ("}" + "")))));
    LexBrace(Token(LBRACE, "{"), " " + ("halt" + (" " + ("}" + ""))));
    LexBlank("halt" + (" " + ("}" + "")));
    LexWord("halt", " " + ("}" + ""));
    LexBlank("}" + "");
    LexBrace(Token(RBRACE, "}"), "");
    Keywords();
    NothingLeft();
  }

  lemma Keywords()
    ensures KeywordType("if") == IF && KeywordType("halt") == HALT
  {
  }

  lemma NothingLeft()
    ensures Lex("") == []
  {
    assert Skip("") == "";
  }

  lemma LoneDollarTokens()
    ensures Lex("if $ { halt }") == [Token(IF, "if"), Token(VARIABLE, "$"), Token(LBRACE, "{"), Token(HALT, "halt"), Token(RBRACE, "}")]
  {
    hide Lex, KeywordType;
    assert "if $ { halt }" == "if" + (" " + ("$" + " { halt }"));
    LexWord("if", " " + ("$" + " { halt }"));
    LexBlank("$" + " { halt }");
    LexName(Token(VARIABLE, "$"), " { halt }");
    HaltTokens();
    Keywords();
  }

  lemma StringTokens()
    ensures Lex("if \"$x\" { halt }") == [Token(IF, "if"), Token(STRING, "$x"), Token(LBRACE, "{"), Token(HALT, "halt"), Token(RBRACE, "}")]
  {
    hide Lex, KeywordType;
    assert "if \"$x\" { halt }" == "if" + (" " + (Quoted("$x") + " { halt }"));
    LexWord("if", " " + (Quoted("$x") + " { halt }"));
    LexBlank(Quoted("$x") + " { halt }");
    LexString(Token(STRING, "$x"), " { halt }");
    HaltTokens();
    Keywords();
  }
}
