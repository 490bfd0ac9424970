/** Texts that lex back to given tokens: how expressions are re-emitted. */
module RhsText {
  import opened RhsLexer

  // ---- What tokens of the lexer look like ----

  predicate AllNameChars(s: string) { forall k :: 0 <= k < |s| ==> IsNameChar(s[k]) }

  predicate AllDigits(s: string) { forall k :: 0 <= k < |s| ==> IsDigit(s[k]) }

  predicate IsName(s: string) { s != "" && (IsAlpha(s[0]) || s[0] == '_') && AllNameChars(s) && KeywordType(s) == IDENTIFIER }

  /** An optional sign and at least one digit. */
  predicate IsInteger(s: string) {
    || (s != "" && AllDigits(s))
    || (|s| >= 2 && s[0] == '-' && AllDigits(s[1..]))
  }

  predicate PointAt(s: string, p: nat) {
    p < |s| && s[p] == '.' && IsInteger(s[..p]) && AllDigits(s[p + 1..])
  }

  ghost predicate TokenOk(t: Token) {
    match t.kind
    case IDENTIFIER => IsName(t.text)
    case VARIABLE => t.text != "" && t.text[0] == '$' && AllNameChars(t.text[1..])
    case INTEGER => IsInteger(t.text)
    case DOUBLE => exists p: nat :: PointAt(t.text, p)
    case PLUS => t.text == "+"
    case MINUS => t.text == "-"
    case STAR => t.text == "*"
    case SLASH => t.text == "/"
    case MOD => t.text == "%"
    case CARET => t.text == "^"
    case GT => t.text == ">"
    case LT => t.text == "<"
    case GE => t.text == ">="
    case LE => t.text == "<="
    case EQ => t.text == "=="
    case NE => t.text == "!="
    case AND => t.text == "&&"
    case OR => t.text == "||"
    case LPAREN => t.text == "("
    case RPAREN => t.text == ")"
    case COMMA => t.text == ","
    case QUESTION => t.text == "?"
    case COLON => t.text == ":"
    case DOT => t.text == "."
    case _ => true
  }

  lemma NumberOk(s: string)
    requires StartsNumber(s)
    ensures TokenOk(ScanNumber(s).token) && ScanNumber(s).token.kind in {INTEGER, DOUBLE}
  {
    var n := IntegerPart(s);
    IntegerPartOk(s);
    hide IntegerPart, IsInteger, DigitRun, TokenOk, PointAt;
    if n < |s| && s[n] == '.' {
      var m := n + 1 + DigitRun(s[n + 1..]);
      PointIs(s, n, m);
      DoubleOk(s[..m], n);
    } else {
      IntegerOk(s[..n]);
    }
  }

  lemma IntegerOk(text: string)
    requires IsInteger(text)
    ensures TokenOk(Token(INTEGER, text))
  {
    hide IsInteger;
  }

  lemma DoubleOk(text: string, p: nat)
    requires PointAt(text, p)
    ensures TokenOk(Token(DOUBLE, text))
  {
    hide PointAt;
  }

  lemma PointIs(s: string, n: nat, m: nat)
    requires n < m <= |s| && s[n] == '.' && IsInteger(s[..n]) && m == n + 1 + DigitRun(s[n + 1..])
    ensures PointAt(s[..m], n)
  {
    hide IsInteger, DigitRun;
    assert s[..m][..n] == s[..n] && s[..m][n + 1..] == s[n + 1..][..m - n - 1];
  }

  lemma IntegerPartOk(s: string)
    requires StartsNumber(s)
    ensures IsInteger(s[..IntegerPart(s)])
  {
    if s[0] == '-' {
      assert s[..IntegerPart(s)][1..] == s[1..][..DigitRun(s[1..])];
    }
  }

  lemma NameOk(s: string)
    requires s != "" && (IsAlpha(s[0]) || s[0] == '_')
    ensures TokenOk(ScanName(s).token)
  {
    var n := NameRun(s);
    assert n >= 1;
    hide NameRun;
    KeywordKinds(s[..n]);
  }

  /** A keyword is none of the kinds whose text matters here. */
  lemma KeywordKinds(text: string)
    ensures KeywordType(text) != IDENTIFIER ==> TokenOk(Token(KeywordType(text), text))
  {
  }

  lemma VariableOk(s: string)
    requires s != "" && s[0] == '$'
    ensures TokenOk(ScanVariable(s).token)
  {
    var n := 1 + NameRun(s[1..]);
    assert s[..n][1..] == s[1..][..n - 1];
  }

  lemma SymbolOk(s: string)
    requires s != ""
    ensures TokenOk(Token(SingleType(s[0]), [s[0]])) && (|s| >= 2 ==> TokenOk(Token(PairType(s[..2]), s[..2])))
  {
  }

  lemma NextOk(s: string)
    ensures TokenOk(Next(s).token)
  {
    var t := Skip(s);
    if t != "" {
      hide TokenOk, ScanName, ScanNumber, ScanContents, ScanVariable, SingleType, PairType;
      if t[0] == '$' { VariableOk(t); }
      else if IsAlpha(t[0]) || t[0] == '_' { NameOk(t); }
      else if StartsNumber(t) { NumberOk(t); }
      else if t[0] == QUOTE || t[0] == APOSTROPHE { ContentsAreString(t[1..], t[0]); StringOk(ScanContents(t[1..], t[0]).token); }
      else { SymbolOk(t); }
    } else {
      assert TokenOk(Token(END, ""));
    }
  }

  lemma StringOk(t: Token)
    requires t.kind == STRING
    ensures TokenOk(t)
  {
  }

  // ---- Lexing one token in front of a text ----

  lemma NextHere(s: string)
    requires s != "" && !IsBlank(s[0]) && !StartsComment(s)
    ensures Next(s) == ScanHere(s) && Lex(s) == [ScanHere(s).token] + Lex(ScanHere(s).rest)
  {
    ScanHereShrinks(s);
  }

  lemma LexBlank(rest: string)
    ensures Lex(" " + rest) == Lex(rest)
  {
    assert (" " + rest)[1..] == rest;
    assert Skip(" " + rest) == Skip(rest);
    assert Next(" " + rest) == Next(rest);
  }

  const LP := Token(LPAREN, "(")
  const RP := Token(RPAREN, ")")
  const CM := Token(COMMA, ",")
  const DT := Token(DOT, ".")

  /** Tokens of these kinds have one spelling. */
  lemma LexPunct(t: Token, rest: string)
    requires t == LP || t == RP || t == CM || t == DT
    ensures Before(t.text, [t], rest)
  {
    var s := t.text + rest;
    PunctHere(t, s, rest);
    NextHere(s);
  }

  lemma PunctHere(t: Token, s: string, rest: string)
    requires (t == LP || t == RP || t == CM || t == DT) && s == t.text + rest
    ensures s != "" && !IsBlank(s[0]) && !StartsComment(s) && ScanHere(s) == Lexeme(t, rest)
  {
    assert s[0] == t.text[0] && s[1..] == rest;
    if |s| >= 2 { NotPair(s[..2]); }
    hide PairType;
  }

  lemma NotPair(two: string)
    requires |two| == 2 && (two[0] == '(' || two[0] == ')' || two[0] == ',' || two[0] == '.')
    ensures PairType(two) == ERROR
  {
  }

  predicate IsOperator(t: Token) {
    t.kind in {PLUS, MINUS, STAR, SLASH, MOD, CARET, GT, LT, GE, LE, EQ, NE, AND, OR}
  }

  /** An operator in front of a blank. */
  lemma LexOperator(t: Token, rest: string)
    requires TokenOk(t) && IsOperator(t)
    ensures Lex(t.text + " " + rest) == [t] + Lex(rest)
  {
    var s := t.text + " " + rest;
    OperatorHere(t, s, " " + rest);
    NextHere(s);
    LexBlank(rest);
  }

  lemma OperatorHere(t: Token, s: string, rest: string)
    requires TokenOk(t) && IsOperator(t) && s == t.text + rest && rest != "" && rest[0] == ' '
    ensures s != "" && !IsBlank(s[0]) && !StartsComment(s) && ScanHere(s) == Lexeme(t, rest)
  {
    OperatorText(t);
    hide TokenOk, PairType, SingleType, ScanHere;
    assert s[0] == t.text[0] && s[|t.text|] == ' ';
    hide IsSymbolChar, IsOperator;
    SymbolScan(s);
    if |t.text| == 2 {
      assert s[..2] == t.text && s[2..] == rest;
    } else {
      assert s[..2] == t.text + " " && s[1..] == rest;
    }
  }

  predicate IsSymbolChar(c: char) { c in {'+', '-', '*', '/', '%', '^', '>', '<', '=', '!', '&', '|'} }

  lemma OperatorText(t: Token)
    requires TokenOk(t) && IsOperator(t)
    ensures 1 <= |t.text| <= 2 && IsSymbolChar(t.text[0]) && !IsBlank(t.text[0]) && !IsDigit(t.text[0])
    ensures |t.text| == 2 ==> t.text[0] != '-' && t.text[0] != '/'
    ensures |t.text| == 1 ==> SingleType(t.text[0]) == t.kind && PairType(t.text + " ") == ERROR
    ensures |t.text| == 2 ==> PairType(t.text) == t.kind
  {
    if |t.text| == 1 { PairBlank(t.text + " "); }
  }

  lemma PairBlank(two: string)
    requires |two| == 2 && two[1] == ' '
    ensures PairType(two) == ERROR
  {
  }

  lemma SymbolScan(s: string)
    requires s != "" && IsSymbolChar(s[0]) && !StartsNumber(s)
    ensures ScanHere(s) ==
      if |s| >= 2 && PairType(s[..2]) != ERROR then Lexeme(Token(PairType(s[..2]), s[..2]), s[2..])
      else Lexeme(Token(SingleType(s[0]), [s[0]]), s[1..])
  {
    hide PairType, SingleType, ScanName, ScanVariable, ScanNumber;
    assert !IsNameChar(s[0]) && s[0] != '$' && s[0] != QUOTE && s[0] != APOSTROPHE;
  }

  predicate EndsName(rest: string) { rest == "" || !IsNameChar(rest[0]) }

  lemma {:induction false} NameRunOf(s: string, rest: string)
    requires AllNameChars(s) && EndsName(rest)
    ensures NameRun(s + rest) == |s|
  {
    if s == "" {
      assert s + rest == rest;
    } else {
      assert (s + rest)[1..] == s[1..] + rest;
      NameRunOf(s[1..], rest);
    }
  }

  lemma {:induction false} DigitRunOf(s: string, rest: string)
    requires AllDigits(s) && (rest == "" || !IsDigit(rest[0]))
    ensures DigitRun(s + rest) == |s|
  {
    if s == "" {
      assert s + rest == rest;
    } else {
      assert (s + rest)[1..] == s[1..] + rest;
      DigitRunOf(s[1..], rest);
    }
  }

  lemma LexName(t: Token, rest: string)
    requires TokenOk(t) && t.kind in {IDENTIFIER, VARIABLE} && EndsName(rest)
    ensures Lex(t.text + rest) == [t] + Lex(rest)
  {
    var s := t.text + rest;
    assert s[..|t.text|] == t.text && s[|t.text|..] == rest && s[0] == t.text[0];
    if t.kind == IDENTIFIER {
      NameRunOf(t.text, rest);
    } else {
      assert s[1..] == t.text[1..] + rest;
      NameRunOf(t.text[1..], rest);
    }
    NextHere(s);
    hide Lex, NameRun, KeywordType;
    assert ScanHere(s) == Lexeme(t, rest);
  }

  /** What may follow an expression: the end, a blank, a closing parenthesis or a comma. */
  predicate Delimits(rest: string) { rest == "" || rest[0] == ' ' || rest[0] == ')' || rest[0] == ',' }

  lemma IntegerPartOf(s: string, rest: string)
    requires IsInteger(s) && (rest == "" || !IsDigit(rest[0]))
    ensures IntegerPart(s + rest) == |s| && StartsNumber(s + rest)
  {
    if s[0] == '-' {
      assert (s + rest)[1..] == s[1..] + rest;
      DigitRunOf(s[1..], rest);
      assert IsDigit(s[1..][0]);
    } else {
      DigitRunOf(s, rest);
    }
  }

  lemma LexNumber(t: Token, rest: string)
    requires TokenOk(t) && t.kind in {INTEGER, DOUBLE} && Delimits(rest)
    ensures Lex(t.text + rest) == [t] + Lex(rest)
  {
    var s := t.text + rest;
    NumberScans(t, rest);
    hide ScanNumber;
    NumberHere(s);
    NextHere(s);
  }

  lemma NumberScans(t: Token, rest: string)
    requires TokenOk(t) && t.kind in {INTEGER, DOUBLE} && Delimits(rest)
    ensures StartsNumber(t.text + rest) && ScanNumber(t.text + rest) == Lexeme(t, rest)
  {
    if t.kind == INTEGER {
      IntegerScans(t.text, rest);
    } else {
      var p: nat :| PointAt(t.text, p);
      DoubleScans(t.text, p, rest);
    }
  }

  lemma IntegerScans(text: string, rest: string)
    requires IsInteger(text) && Delimits(rest)
    ensures StartsNumber(text + rest) && ScanNumber(text + rest) == Lexeme(Token(INTEGER, text), rest)
  {
    hide IntegerPart, DigitRun, IsInteger;
    var s := text + rest;
    assert s[..|text|] == text && s[|text|..] == rest;
    IntegerPartOf(text, rest);
  }

  lemma DoubleScans(text: string, p: nat, rest: string)
    requires PointAt(text, p) && Delimits(rest)
    ensures StartsNumber(text + rest) && ScanNumber(text + rest) == Lexeme(Token(DOUBLE, text), rest)
  {
    hide IntegerPart, DigitRun, IsInteger;
    var s := text + rest;
    assert s[..|text|] == text && s[|text|..] == rest;
    assert text == text[..p] + text[p..];
    IntegerPartOf(text[..p], text[p..] + rest);
    assert s == text[..p] + (text[p..] + rest);
    assert s[p + 1..] == text[p + 1..] + rest;
    DigitRunOf(text[p + 1..], rest);
    assert s[p] == '.';
  }

  /** String contents that can be put between double quotes as they are. */
  predicate PlainContents(s: string) { forall k :: 0 <= k < |s| ==> s[k] != QUOTE && s[k] != BACKSLASH }

  lemma {:induction false} ContentsOf(s: string, rest: string)
    requires PlainContents(s)
    ensures ScanContents(s + [QUOTE] + rest, QUOTE) == Lexeme(Token(STRING, s), rest)
  {
    var all := s + [QUOTE] + rest;
    if s == "" {
      assert all[0] == QUOTE && all[1..] == rest;
    } else {
      assert all[0] == s[0] && all[1..] == s[1..] + [QUOTE] + rest;
      ContentsOf(s[1..], rest);
      assert [s[0]] + s[1..] == s;
    }
  }

  function Quoted(s: string): string { [QUOTE] + s + [QUOTE] }

  lemma LexString(t: Token, rest: string)
    requires t.kind == STRING && PlainContents(t.text)
    ensures Lex(Quoted(t.text) + rest) == [t] + Lex(rest)
  {
    var s := Quoted(t.text) + rest;
    assert s[0] == QUOTE && s[1..] == t.text + [QUOTE] + rest;
    ContentsOf(t.text, rest);
    NextHere(s);
    hide Lex, ScanContents;
    assert ScanHere(s) == Lexeme(t, rest);
  }

  // ---- Texts of several tokens ----

  ghost predicate Before(e: string, ts: seq<Token>, rest: string) { Lex(e + rest) == ts + Lex(rest) }

  /** Wherever an expression may stand, the text `e` lexes to the tokens `ts`. */
  ghost predicate Spells(e: string, ts: seq<Token>) { forall rest :: Delimits(rest) ==> Before(e, ts, rest) }

  /** The same in front of anything that does not continue a name. */
  ghost predicate SpellsName(e: string, ts: seq<Token>) { forall rest :: EndsName(rest) ==> Before(e, ts, rest) }

  lemma SpellsAlone(e: string, ts: seq<Token>)
    requires Spells(e, ts)
    ensures Lex(e) == ts
  {
    assert Before(e, ts, "");
    assert e + "" == e && Skip("") == "";
  }

  lemma NameSpells(e: string, ts: seq<Token>)
    requires SpellsName(e, ts)
    ensures Spells(e, ts)
  {
    hide Before;
  }

  lemma SpellsWord(t: Token)
    requires TokenOk(t) && t.kind in {IDENTIFIER, VARIABLE}
    ensures SpellsName(t.text, [t])
  {
    hide Lex, TokenOk;
    forall rest | EndsName(rest) ensures Before(t.text, [t], rest) { LexName(t, rest); }
  }

  lemma SpellsNumber(t: Token)
    requires TokenOk(t) && t.kind in {INTEGER, DOUBLE}
    ensures Spells(t.text, [t])
  {
    hide Lex, TokenOk;
    forall rest | Delimits(rest) ensures Before(t.text, [t], rest) { LexNumber(t, rest); }
  }

  lemma SpellsString(t: Token)
    requires t.kind == STRING && PlainContents(t.text)
    ensures Spells(Quoted(t.text), [t])
  {
    hide Lex;
    forall rest | Delimits(rest) ensures Before(Quoted(t.text), [t], rest) { LexString(t, rest); }
  }

  /** Texts one after the other. */
  lemma Then(a: string, ts: seq<Token>, b: string, us: seq<Token>, rest: string)
    requires Before(a, ts, b + rest) && Before(b, us, rest)
    ensures Before(a + b, ts + us, rest)
  {
    hide Lex;
    assert a + (b + rest) == a + b + rest;
    assert ts + (us + Lex(rest)) == ts + us + Lex(rest);
  }

  lemma SpellsField(e: string, ts: seq<Token>, field: Token)
    requires SpellsName(e, ts) && TokenOk(field) && field.kind == IDENTIFIER
    ensures SpellsName(e + "." + field.text, ts + [DT] + [field])
  {
    hide Before, TokenOk;
    forall rest | EndsName(rest) ensures Before(e + "." + field.text, ts + [DT] + [field], rest) {
      SpellsWord(field);
      LexPunct(DT, field.text + rest);
      assert EndsName("." + (field.text + rest));
      Then(e, ts, ".", [DT], field.text + rest);
      Then(e + ".", ts + [DT], field.text, [field], rest);
    }
  }

  lemma LexSpaced(op: Token, rest: string)
    requires TokenOk(op) && IsOperator(op)
    ensures Before(" " + op.text + " ", [op], rest)
  {
    hide Lex, TokenOk;
    LexBlank(op.text + " " + rest);
    LexOperator(op, rest);
    assert " " + op.text + " " + rest == " " + (op.text + " " + rest);
  }

  lemma SpellsBinary(a: string, ts: seq<Token>, op: Token, b: string, us: seq<Token>)
    requires Spells(a, ts) && TokenOk(op) && IsOperator(op) && Spells(b, us)
    ensures Spells(a + (" " + op.text + " ") + b, ts + [op] + us)
  {
    hide Before, TokenOk;
    var mid := " " + op.text + " ";
    forall rest | Delimits(rest) ensures Before(a + mid + b, ts + [op] + us, rest) {
      LexSpaced(op, b + rest);
      assert Delimits(mid + (b + rest));
      Then(a, ts, mid, [op], b + rest);
      Then(a + mid, ts + [op], b, us, rest);
    }
  }

  lemma SpellsParens(e: string, ts: seq<Token>)
    requires Spells(e, ts)
    ensures Spells("(" + e + ")", [LP] + ts + [RP])
  {
    hide Before;
    forall rest | Delimits(rest) ensures Before("(" + e + ")", [LP] + ts + [RP], rest) {
      LexPunct(RP, rest);
      LexPunct(LP, e + (")" + rest));
      Then("(", [LP], e, ts, ")" + rest);
      Then("(" + e, [LP] + ts, ")", [RP], rest);
    }
  }

  lemma OpenCall(name: Token, rest: string)
    requires TokenOk(name) && name.kind == IDENTIFIER
    ensures Before(name.text + "(", [name] + [LP], rest)
  {
    hide Before, TokenOk;
    SpellsWord(name);
    LexPunct(LP, rest);
    assert EndsName("(" + rest);
    Then(name.text, [name], "(", [LP], rest);
  }

  /** `name(` in front of the first argument. */
  lemma SpellsFirst(name: Token, e: string, ts: seq<Token>)
    requires TokenOk(name) && name.kind == IDENTIFIER && Spells(e, ts)
    ensures Spells(name.text + "(" + e, [name] + [LP] + ts)
  {
    hide Before, TokenOk;
    forall rest | Delimits(rest) ensures Before(name.text + "(" + e, [name] + [LP] + ts, rest) {
      OpenCall(name, e + rest);
      Then(name.text + "(", [name] + [LP], e, ts, rest);
    }
  }

  lemma LexCommaBlank(rest: string)
    ensures Before(", ", [CM], rest)
  {
    LexPunct(CM, " " + rest);
    hide Lex;
    LexBlank(rest);
    assert ", " + rest == "," + (" " + rest);
  }

  /** Another argument. */
  lemma SpellsNext(a: string, ts: seq<Token>, e: string, us: seq<Token>)
    requires Spells(a, ts) && Spells(e, us)
    ensures Spells(a + ", " + e, ts + [CM] + us)
  {
    hide Before;
    forall rest | Delimits(rest) ensures Before(a + ", " + e, ts + [CM] + us, rest) {
      LexCommaBlank(e + rest);
      assert Delimits(", " + (e + rest));
      Then(a, ts, ", ", [CM], e + rest);
      Then(a + ", ", ts + [CM], e, us, rest);
    }
  }

  /** The closing parenthesis of a call. */
  lemma SpellsClose(a: string, ts: seq<Token>)
    requires Spells(a, ts)
    ensures Spells(a + ")", ts + [RP])
  {
    hide Before;
    forall rest | Delimits(rest) ensures Before(a + ")", ts + [RP], rest) {
      LexPunct(RP, rest);
      assert Delimits(")" + rest);
      Then(a, ts, ")", [RP], rest);
    }
  }

  /** A call without arguments. */
  lemma SpellsEmptyCall(name: Token)
    requires TokenOk(name) && name.kind == IDENTIFIER
    ensures Spells(name.text + "(" + ")", [name] + [LP] + [RP])
  {
    hide Before, TokenOk;
    forall rest | Delimits(rest) ensures Before(name.text + "(" + ")", [name] + [LP] + [RP], rest) {
      LexPunct(RP, rest);
      OpenCall(name, ")" + rest);
      Then(name.text + "(", [name] + [LP], ")", [RP], rest);
    }
  }

  // ---- Up to renaming ----

  predicate IsCall(ts: seq<Token>, i: nat) {
    i + 1 < |ts| && ts[i].kind == IDENTIFIER && ts[i + 1].kind == LPAREN
  }

  /** The functions that are emitted under another name. */
  function NewName(name: string): string {
    if name == "to_upper" then "upper" else if name == "to_lower" then "lower" else name
  }

  function RenamedAt(ts: seq<Token>, i: nat): Token
    requires i < |ts|
  {
    if IsCall(ts, i) then ts[i].(text := NewName(ts[i].text)) else ts[i]
  }

  /** Only the two functions with another name are renamed, and only where they are called. */
  lemma RenamedCalls(ts: seq<Token>, i: nat)
    requires i < |ts|
    ensures var called := ts[i].kind == IDENTIFIER && i + 1 < |ts| && ts[i + 1].kind == LPAREN;
      if called && ts[i].text == "to_upper" then Renamed(ts)[i] == Token(IDENTIFIER, "upper")
      else if called && ts[i].text == "to_lower" then Renamed(ts)[i] == Token(IDENTIFIER, "lower")
      else Renamed(ts)[i] == ts[i]
  {
  }

  function Renamed(ts: seq<Token>): (r: seq<Token>)
    ensures |r| == |ts|
    ensures forall i :: 0 <= i < |ts| ==> r[i] == RenamedAt(ts, i)
  {
    seq(|ts|, i requires 0 <= i < |ts| => RenamedAt(ts, i))
  }

  predicate Separate(a: seq<Token>, b: seq<Token>) {
    a == [] || b == [] || a[|a| - 1].kind != IDENTIFIER || b[0].kind != LPAREN
  }

  lemma RenamedLeft(a: seq<Token>, b: seq<Token>, i: nat)
    requires Separate(a, b) && i < |a|
    ensures RenamedAt(a + b, i) == RenamedAt(a, i)
  {
    assert (a + b)[i] == a[i];
    if i + 1 < |a| { assert (a + b)[i + 1] == a[i + 1]; } else if b != [] { assert (a + b)[i + 1] == b[0]; }
  }

  lemma RenamedRight(a: seq<Token>, b: seq<Token>, i: nat)
    requires i < |b|
    ensures RenamedAt(a + b, |a| + i) == RenamedAt(b, i)
  {
    assert (a + b)[|a| + i] == b[i];
    if i + 1 < |b| { assert (a + b)[|a| + i + 1] == b[i + 1]; }
  }

  lemma RenamedConcat(a: seq<Token>, b: seq<Token>)
    requires Separate(a, b)
    ensures Renamed(a + b) == Renamed(a) + Renamed(b)
  {
    hide RenamedAt;
    forall i | 0 <= i < |a + b| ensures Renamed(a + b)[i] == (Renamed(a) + Renamed(b))[i] {
      if i < |a| { RenamedLeft(a, b, i); } else { RenamedRight(a, b, i - |a|); }
    }
  }

  lemma RenamedOne(t: Token)
    ensures Renamed([t]) == [t]
  {
  }

  /** No ternary, no `concat`, and no string that would need escapes. */
  ghost predicate Clean(ts: seq<Token>) {
    && (forall i :: 0 <= i < |ts| ==> ts[i].kind != QUESTION && (ts[i].kind == STRING ==> PlainContents(ts[i].text)))
    && (forall i: nat :: IsCall(ts, i) ==> ts[i].text != "concat")
  }

  lemma CleanParts(a: seq<Token>, b: seq<Token>)
    requires Clean(a + b)
    ensures Clean(a) && Clean(b)
  {
    forall i | 0 <= i < |a| ensures a[i].kind != QUESTION && (a[i].kind == STRING ==> PlainContents(a[i].text)) { assert a[i] == (a + b)[i]; }
    forall i | 0 <= i < |b| ensures b[i].kind != QUESTION && (b[i].kind == STRING ==> PlainContents(b[i].text)) { assert b[i] == (a + b)[|a| + i]; }
    forall i: nat | IsCall(a, i) ensures a[i].text != "concat" { assert IsCall(a + b, i); }
    forall i: nat | IsCall(b, i) ensures b[i].text != "concat" { assert IsCall(a + b, |a| + i); }
  }

  /** The text `e` stands for the consumed tokens `ts`. */
  ghost predicate Emits(e: string, ts: seq<Token>) { Clean(ts) ==> Spells(e, Renamed(ts)) }

  /** Three pieces that are clean and rename piece by piece. */
  lemma Pieces(a: seq<Token>, t: Token, b: seq<Token>)
    requires Clean(a + [t] + b) && t.kind != IDENTIFIER && t.kind != LPAREN
    ensures Clean(a) && Clean(b) && Renamed(a + [t] + b) == Renamed(a) + [t] + Renamed(b)
  {
    CleanParts(a + [t], b);
    CleanParts(a, [t]);
    RenamedConcat(a + [t], b);
    RenamedConcat(a, [t]);
    RenamedOne(t);
  }

  lemma EmitsBinary(a: string, ts: seq<Token>, op: Token, b: string, us: seq<Token>)
    requires Emits(a, ts) && TokenOk(op) && IsOperator(op) && Emits(b, us)
    ensures Emits(a + (" " + op.text + " ") + b, ts + [op] + us)
  {
    hide Clean, Spells, TokenOk, Renamed;
    if Clean(ts + [op] + us) {
      Pieces(ts, op, us);
      SpellsBinary(a, Renamed(ts), op, b, Renamed(us));
    }
  }

  lemma EmitsNext(a: string, ts: seq<Token>, e: string, us: seq<Token>)
    requires Emits(a, ts) && Emits(e, us)
    ensures Emits(a + ", " + e, ts + [CM] + us)
  {
    hide Clean, Spells, Renamed;
    if Clean(ts + [CM] + us) {
      Pieces(ts, CM, us);
      SpellsNext(a, Renamed(ts), e, Renamed(us));
    }
  }

  lemma EmitsClose(a: string, ts: seq<Token>)
    requires Emits(a, ts)
    ensures Emits(a + ")", ts + [RP])
  {
    hide Clean, Spells, Renamed;
    if Clean(ts + [RP]) {
      CleanParts(ts, [RP]);
      RenamedConcat(ts, [RP]);
      RenamedOne(RP);
      SpellsClose(a, Renamed(ts));
    }
  }

  lemma EmitsParens(e: string, ts: seq<Token>)
    requires Emits(e, ts)
    ensures Emits("(" + e + ")", [LP] + ts + [RP])
  {
    hide Clean, Spells, Renamed;
    if Clean([LP] + ts + [RP]) {
      CleanParts([LP] + ts, [RP]);
      CleanParts([LP], ts);
      RenamedConcat([LP] + ts, [RP]);
      RenamedConcat([LP], ts);
      RenamedOne(LP);
      RenamedOne(RP);
      SpellsParens(e, Renamed(ts));
    }
  }

  /** Names and their fields are emitted as they are. */
  lemma EmitsPath(e: string, ts: seq<Token>)
    requires SpellsName(e, ts) && forall i :: 0 <= i < |ts| ==> ts[i].kind != LPAREN
    ensures Emits(e, ts)
  {
    NameSpells(e, ts);
    assert Renamed(ts) == ts;
    hide Spells, SpellsName;
  }

  lemma EmitsNumber(t: Token)
    requires TokenOk(t) && t.kind in {INTEGER, DOUBLE}
    ensures Emits(t.text, [t])
  {
    SpellsNumber(t);
    hide Spells, TokenOk;
    RenamedOne(t);
  }

  lemma EmitsString(t: Token)
    requires t.kind == STRING
    ensures Emits(Quoted(t.text), [t])
  {
    hide Spells;
    if Clean([t]) {
      assert [t][0] == t;
      SpellsString(t);
      RenamedOne(t);
    }
  }

  function NewToken(name: Token): Token { name.(text := NewName(name.text)) }

  lemma RenamedHead(name: Token, ts: seq<Token>)
    requires name.kind == IDENTIFIER
    ensures Renamed([name] + [LP] + ts) == [NewToken(name)] + [LP] + Renamed(ts)
  {
    RenamedConcat([name] + [LP], ts);
    assert IsCall([name] + [LP], 0);
    assert Renamed([name] + [LP]) == [NewToken(name)] + [LP];
  }

  lemma NewNameOk(name: Token)
    requires TokenOk(name) && name.kind == IDENTIFIER
    ensures TokenOk(NewToken(name)) && NewToken(name).kind == IDENTIFIER
  {
    hide IsName;
    NewNames();
  }

  lemma NewNames()
    ensures IsName("upper") && IsName("lower")
  {
  }

  lemma EmitsEmptyCall(name: Token)
    requires TokenOk(name) && name.kind == IDENTIFIER
    ensures Emits(NewName(name.text) + "(" + ")", [name] + [LP] + [RP])
  {
    NewNameOk(name);
    RenamedHead(name, [RP]);
    RenamedOne(RP);
    hide Clean, Spells, TokenOk, Renamed;
    SpellsEmptyCall(NewToken(name));
  }

  lemma EmitsFirst(name: Token, e: string, ts: seq<Token>)
    requires TokenOk(name) && name.kind == IDENTIFIER && Emits(e, ts)
    ensures Emits(NewName(name.text) + "(" + e, [name] + [LP] + ts)
  {
    hide Clean, Spells, TokenOk, Renamed, NewName;
    if Clean([name] + [LP] + ts) {
      CleanParts([name] + [LP], ts);
      NewNameOk(name);
      RenamedHead(name, ts);
      SpellsFirst(NewToken(name), e, Renamed(ts));
    }
  }

  /** A ternary and a `concat` call are outside the claim. */
  lemma EmitsUnclean(e: string, ts: seq<Token>)
    requires !Clean(ts)
    ensures Emits(e, ts)
  {
  }

  /** Lexing the emitted text gives the consumed tokens back, up to the renaming. */
  lemma EmittedLexesBack(e: string, ts: seq<Token>)
    requires Emits(e, ts) && Clean(ts)
    ensures Lex(e) == Renamed(ts)
  {
    SpellsAlone(e, Renamed(ts));
  }
}
