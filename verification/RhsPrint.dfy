/** Writing tokens so that they lex back: the lexer's table of words, symbols and escapes, read backwards. */
module RhsPrint {
  import opened RhsLexer
  import opened RhsText

  // ---- One spelling for every kind ----

  /** The text of each keyword and symbol. */
  function Spelling(kind: Type): string {
    match kind
    case UPDATE => "update" case INSERT => "insert" case INSERT_LOGICAL => "insertLogical" case RETRACT => "retract"
    case HALT => "halt" case SET_FOCUS => "setFocus" case IF => "if" case ELSE => "else" case FOR => "for" case IN => "in"
    case WHILE => "while" case SWITCH => "switch" case CASE => "case" case DEFAULT => "default"
    case BREAK => "break" case CONTINUE => "continue" case TRUE => "true" case FALSE => "false"
    case LBRACE => "{" case RBRACE => "}" case LPAREN => "(" case RPAREN => ")" case COMMA => "," case DOT => "." case ASSIGN => "="
    case PLUS => "+" case MINUS => "-" case STAR => "*" case SLASH => "/" case MOD => "%" case CARET => "^" case QUESTION => "?" case COLON => ":"
    case GT => ">" case LT => "<" case GE => ">=" case LE => "<=" case EQ => "==" case NE => "!=" case AND => "&&" case OR => "||"
    case _ => ""
  }

  predicate IsKeyword(kind: Type) {
    kind in {UPDATE, INSERT, INSERT_LOGICAL, RETRACT, HALT, SET_FOCUS, IF, ELSE, FOR, IN, WHILE, SWITCH, CASE, DEFAULT, BREAK, CONTINUE, TRUE, FALSE}
  }

  predicate IsSingle(kind: Type) {
    kind in {LBRACE, RBRACE, LPAREN, RPAREN, COMMA, DOT, ASSIGN, PLUS, MINUS, STAR, SLASH, MOD, CARET, QUESTION, COLON, GT, LT}
  }

  predicate IsPair(kind: Type) { kind in {GE, LE, EQ, NE, AND, OR} }

  predicate IsFixed(kind: Type) { IsKeyword(kind) || IsSingle(kind) || IsPair(kind) }

  /** A token that can be written. */
  ghost predicate Writable(t: Token) {
    if IsFixed(t.kind) then t.text == Spelling(t.kind)
    else match t.kind
      case IDENTIFIER => t.text != "" && (IsAlpha(t.text[0]) || t.text[0] == '_') && AllNameChars(t.text) && NoKeyword(t.text)
      case VARIABLE => t.text != "" && t.text[0] == '$' && AllNameChars(t.text[1..])
      case INTEGER => IsInteger(t.text)
      case DOUBLE => exists p: nat :: PointAt(t.text, p)
      case STRING => true
      case _ => false
  }

  predicate NoKeyword(s: string) { forall kind :: IsKeyword(kind) ==> s != Spelling(kind) }

  // ---- Strings ----

  function Escaped(c: char): string {
    if c == '\n' then "\\n" else if c == '\t' then "\\t" else if c == '\r' then "\\r"
    else if c == QUOTE || c == BACKSLASH then [BACKSLASH, c] else [c]
  }

  function EscapedAll(s: string): string { if s == "" then "" else Escaped(s[0]) + EscapedAll(s[1..]) }

  /** Escaped contents are read back, whatever characters they hold. */
  lemma {:induction false} ContentsBack(s: string, rest: string)
    ensures ScanContents(EscapedAll(s) + [QUOTE] + rest, QUOTE) == Lexeme(Token(STRING, s), rest)
    decreases |s|
  {
    if s == "" {
      var t := EscapedAll(s) + [QUOTE] + rest;
      assert t[0] == QUOTE && t[1..] == rest;
    } else {
      ContentsBack(s[1..], rest);
      OneBack(s[0], EscapedAll(s[1..]) + [QUOTE] + rest);
      assert EscapedAll(s) + [QUOTE] + rest == Escaped(s[0]) + (EscapedAll(s[1..]) + [QUOTE] + rest);
      hide ScanContents, EscapedAll, Escaped;
      assert [s[0]] + s[1..] == s;
    }
  }

  lemma OneBack(c: char, more: string)
    requires more != ""
    ensures ScanContents(Escaped(c) + more, QUOTE) == Prefixed(c, ScanContents(more, QUOTE))
  {
    var t := Escaped(c) + more;
    if |Escaped(c)| == 1 {
      assert t[0] == c && t[1..] == more;
    } else {
      assert t[0] == BACKSLASH && t[1] == Escaped(c)[1] && t[2..] == more;
      assert Unescaped(t[1]) == c;
    }
  }

  function Written(t: Token): string { if t.kind == STRING then [QUOTE] + EscapedAll(t.text) + [QUOTE] else t.text }

  function WrittenAll(ts: seq<Token>): string { if ts == [] then "" else Written(ts[0]) + " " + WrittenAll(ts[1..]) }

  // ---- One token in front of a blank ----

  lemma KeywordShape(kind: Type)
    requires IsKeyword(kind)
    ensures var s := Spelling(kind); s != "" && IsAlpha(s[0]) && AllNameChars(s)
  {
  }

  lemma EarlyKeywords(kind: Type)
    requires kind in {UPDATE, INSERT, INSERT_LOGICAL, RETRACT, HALT, SET_FOCUS}
    ensures KeywordType(Spelling(kind)) == kind
  {
  }

  lemma MiddleKeywords(kind: Type)
    requires kind in {IF, ELSE, FOR, IN, WHILE, SWITCH}
    ensures KeywordType(Spelling(kind)) == kind
  {
  }

  lemma LateKeywords(kind: Type)
    requires kind in {CASE, DEFAULT}
    ensures KeywordType(Spelling(kind)) == kind
  {
  }

  lemma LoopKeywords(kind: Type)
    requires kind in {BREAK, CONTINUE}
    ensures KeywordType(Spelling(kind)) == kind
  {
  }

  lemma TruthKeywords()
    ensures KeywordType(Spelling(TRUE)) == TRUE
  {
  }

  lemma FalsehoodKeywords()
    ensures KeywordType(Spelling(FALSE)) == FALSE
  {
  }

  lemma KeywordBack(kind: Type)
    requires IsKeyword(kind)
    ensures var s := Spelling(kind); s != "" && IsAlpha(s[0]) && AllNameChars(s) && KeywordType(s) == kind
  {
    KeywordShape(kind);
    hide Spelling, KeywordType, AllNameChars;
    if kind in {UPDATE, INSERT, INSERT_LOGICAL, RETRACT, HALT, SET_FOCUS} { EarlyKeywords(kind); }
    else if kind in {IF, ELSE, FOR, IN, WHILE, SWITCH} { MiddleKeywords(kind); }
    else if kind in {CASE, DEFAULT} { LateKeywords(kind); }
    else if kind in {BREAK, CONTINUE} { LoopKeywords(kind); }
    else {
      TruthKeywords();
      FalsehoodKeywords();
    }
  }

  lemma NoEarlyWord(s: string)
    requires NoKeyword(s)
    ensures s != "update" && s != "insert" && s != "insertLogical" && s != "retract" && s != "halt" && s != "setFocus"
  {
    hide NoKeyword, KeywordType;
    NotSpelled(s, UPDATE);
    NotSpelled(s, INSERT);
    NotSpelled(s, INSERT_LOGICAL);
    NotSpelled(s, RETRACT);
    NotSpelled(s, HALT);
    NotSpelled(s, SET_FOCUS);
  }

  lemma NoMiddleWord(s: string)
    requires NoKeyword(s)
    ensures s != "if" && s != "else" && s != "for" && s != "in" && s != "while" && s != "switch"
  {
    hide NoKeyword, KeywordType;
    NotSpelled(s, IF);
    NotSpelled(s, ELSE);
    NotSpelled(s, FOR);
    NotSpelled(s, IN);
    NotSpelled(s, WHILE);
    NotSpelled(s, SWITCH);
  }

  lemma NoLateWord(s: string)
    requires NoKeyword(s)
    ensures s != "case" && s != "default" && s != "break" && s != "continue" && s != "true" && s != "false"
  {
    hide NoKeyword, KeywordType;
    NotSpelled(s, CASE);
    NotSpelled(s, DEFAULT);
    NotSpelled(s, BREAK);
    NotSpelled(s, CONTINUE);
    NotSpelled(s, TRUE);
    NotSpelled(s, FALSE);
  }

  lemma NotSpelled(s: string, kind: Type)
    requires NoKeyword(s) && IsKeyword(kind)
    ensures s != Spelling(kind)
  {
    hide Spelling;
  }

  lemma NotListed(s: string)
    requires NoKeyword(s)
    ensures KeywordType(s) == IDENTIFIER
  {
    NoEarlyWord(s);
    NoMiddleWord(s);
    NoLateWord(s);
    hide Spelling, NoKeyword;
  }

  /** A keyword's kind tells its text. */
  lemma KeywordText(s: string)
    requires KeywordType(s) != IDENTIFIER
    ensures IsKeyword(KeywordType(s)) && s == Spelling(KeywordType(s))
  {
    hide KeywordType, Spelling;
    if NoKeyword(s) {
      NotListed(s);
    } else {
      var kind :| IsKeyword(kind) && s == Spelling(kind);
      KeywordBack(kind);
    }
  }

  lemma NameNoKeyword(s: string)
    ensures NoKeyword(s) <==> KeywordType(s) == IDENTIFIER
  {
    hide KeywordType, Spelling;
    if KeywordType(s) != IDENTIFIER {
      KeywordText(s);
      assert !NoKeyword(s);
    } else {
      forall kind | IsKeyword(kind) ensures s != Spelling(kind) { KeywordBack(kind); }
    }
  }

  lemma WordBack(t: Token, rest: string)
    requires t.text != "" && (IsAlpha(t.text[0]) || t.text[0] == '_') && AllNameChars(t.text) && KeywordType(t.text) == t.kind && EndsName(rest)
    ensures Lex(t.text + rest) == [t] + Lex(rest)
  {
    var s := t.text + rest;
    assert s[..|t.text|] == t.text && s[|t.text|..] == rest && s[0] == t.text[0];
    NameRunOf(t.text, rest);
    hide Lex, NameRun, KeywordType;
    assert ScanHere(s) == Lexeme(t, rest);
    NextHere(s);
  }

  lemma StringBack(s: string, rest: string)
    ensures Lex([QUOTE] + EscapedAll(s) + [QUOTE] + rest) == [Token(STRING, s)] + Lex(rest)
  {
    var inner := EscapedAll(s) + [QUOTE] + rest;
    var text := [QUOTE] + EscapedAll(s) + [QUOTE] + rest;
    assert text[0] == QUOTE && text[1..] == inner;
    ContentsBack(s, rest);
    hide Lex, EscapedAll, ScanContents;
    assert ScanHere(text) == ScanContents(inner, QUOTE);
    NextHere(text);
  }

  lemma SingleBack(kind: Type)
    requires IsSingle(kind)
    ensures var s := Spelling(kind); |s| == 1 && SingleType(s[0]) == kind && !IsNameChar(s[0]) && s[0] !in {'$', QUOTE, APOSTROPHE} && !IsBlank(s[0])
  {
  }

  lemma PairBack(kind: Type)
    requires IsPair(kind)
    ensures var s := Spelling(kind); |s| == 2 && PairType(s) == kind && s[0] in {'>', '<', '=', '!', '&', '|'}
  {
  }

  lemma SymbolBack(t: Token, rest: string)
    requires (IsSingle(t.kind) || IsPair(t.kind)) && t.text == Spelling(t.kind)
    ensures Lex(t.text + " " + rest) == [t] + Lex(" " + rest)
  {
    var s := t.text + " " + rest;
    if IsSingle(t.kind) {
      SingleBack(t.kind);
      assert s[0] == t.text[0] && s[1] == ' ' && s[1..] == " " + rest && s[..2] == [t.text[0], ' '];
      PairBlank(s[..2]);
    } else {
      PairBack(t.kind);
      assert s[0] == t.text[0] && s[..2] == t.text && s[2..] == " " + rest;
    }
    SymbolText(s, t, " " + rest);
    hide Lex;
    NextHere(s);
  }

  lemma SymbolText(s: string, t: Token, rest: string)
    requires |s| >= 2 && !IsNameChar(s[0]) && s[0] !in {'$', QUOTE, APOSTROPHE} && !IsBlank(s[0])
    requires if PairType(s[..2]) != ERROR then t == Token(PairType(s[..2]), s[..2]) && rest == s[2..] && s[0] != '-' && s[0] != '/'
             else t == Token(SingleType(s[0]), [s[0]]) && rest == s[1..] && s[1] == ' '
    ensures !StartsComment(s) && ScanHere(s) == Lexeme(t, rest)
  {
    hide PairType, SingleType, ScanName, ScanNumber, ScanVariable, ScanContents;
  }

  /** A written token in front of a blank lexes to itself. */
  lemma TokenBack(t: Token, rest: string)
    requires Writable(t)
    ensures Lex(Written(t) + " " + rest) == [t] + Lex(rest)
  {
    LexBlank(rest);
    var more := " " + rest;
    assert Written(t) + " " + rest == Written(t) + more;
    hide Lex, KeywordType, Spelling, EscapedAll;
    if IsKeyword(t.kind) {
      KeywordBack(t.kind);
      WordBack(t, more);
    } else if IsFixed(t.kind) {
      SymbolBack(t, rest);
    } else {
      match t.kind
      case IDENTIFIER =>
        NameNoKeyword(t.text);
        WordBack(t, more);
      case VARIABLE => LexName(t, more);
      case STRING =>
        StringBack(t.text, more);
        assert [QUOTE] + EscapedAll(t.text) + [QUOTE] + more == Written(t) + more;
      case _ => LexNumber(t, more);
    }
  }

  /** Written tokens lex back to themselves. */
  lemma {:induction false} WrittenLexesBack(ts: seq<Token>)
    requires forall i :: 0 <= i < |ts| ==> Writable(ts[i])
    ensures Lex(WrittenAll(ts)) == ts
  {
    hide Lex, Writable, Written;
    if ts == [] {
      EmptyLex();
    } else {
      TokenBack(ts[0], WrittenAll(ts[1..]));
      WrittenLexesBack(ts[1..]);
    }
  }

  lemma EmptyLex()
    ensures Lex("") == []
  {
  }

  // ---- What lies between tokens ----

  /** White space between tokens is skipped. */
  lemma BlankSkipped(c: char, s: string)
    requires c in {' ', '\t', '\r', '\n'}
    ensures Lex([c] + s) == Lex(s)
  {
    assert ([c] + s)[1..] == s;
    hide ScanHere, Lex;
    assert Skip([c] + s) == Skip(s);
    SkippedAlike([c] + s, s);
  }

  /** A line comment reaches to the end of its line. */
  lemma CommentSkipped(text: string, s: string)
    requires forall k :: 0 <= k < |text| ==> text[k] != '\n'
    ensures Lex("//" + text + "\n" + s) == Lex(s)
  {
    var t := "//" + text + "\n" + s;
    LineDropped("//" + text, "\n" + s);
    assert t == "//" + text + ("\n" + s) && ("\n" + s)[1..] == s && t[0] == '/' && t[1] == '/';
    hide ScanHere, DropLine, Lex;
    assert Skip(t) == Skip("\n" + s) == Skip(s);
    SkippedAlike(t, s);
  }

  lemma SkippedAlike(t: string, s: string)
    requires Skip(t) == Skip(s)
    ensures Lex(t) == Lex(s)
  {
    hide Skip, ScanHere;
    assert Next(t) == Next(s);
    hide Next;
  }

  lemma {:induction false} LineDropped(text: string, s: string)
    requires (forall k :: 0 <= k < |text| ==> text[k] != '\n') && s != "" && s[0] == '\n'
    ensures DropLine(text + s) == s
  {
    if text == "" {
      assert text + s == s;
    } else {
      assert (text + s)[1..] == text[1..] + s;
      LineDropped(text[1..], s);
    }
  }

  /** Either quote ends the string it starts; a string that is not closed reaches to the end. */
  lemma {:induction false} StringsScanned(s: string, quote: char, rest: string)
    requires forall k :: 0 <= k < |s| ==> s[k] != quote && s[k] != BACKSLASH
    requires quote == QUOTE || quote == APOSTROPHE
    ensures ScanContents(s + [quote] + rest, quote) == Lexeme(Token(STRING, s), rest)
    ensures ScanContents(s, quote) == Lexeme(Token(STRING, s), "")
    decreases |s|
  {
    var t := s + [quote] + rest;
    if s == "" {
      assert t[0] == quote && t[1..] == rest;
    } else {
      assert t[0] == s[0] && t[1..] == s[1..] + [quote] + rest;
      StringsScanned(s[1..], quote, rest);
      assert [s[0]] + s[1..] == s;
    }
  }

  lemma StringsLexed(s: string, quote: char, rest: string)
    requires forall k :: 0 <= k < |s| ==> s[k] != quote && s[k] != BACKSLASH
    requires quote == QUOTE || quote == APOSTROPHE
    ensures Lex([quote] + s + [quote] + rest) == [Token(STRING, s)] + Lex(rest)
    ensures Lex([quote] + s) == [Token(STRING, s)]
  {
    StringsScanned(s, quote, rest);
    var t, u := [quote] + s + [quote] + rest, [quote] + s;
    assert t[0] == quote && t[1..] == s + [quote] + rest && u[0] == quote && u[1..] == s;
    hide Lex, ScanContents;
    assert ScanHere(t) == ScanContents(t[1..], quote) && ScanHere(u) == ScanContents(u[1..], quote);
    NextHere(t);
    NextHere(u);
    EmptyLex();
  }

  // ---- Every token of the lexer can be written ----

  lemma NextWritable(s: string)
    ensures Next(s).token.kind != END && Next(s).token.kind != ERROR ==> Writable(Next(s).token)
  {
    var t := Skip(s);
    if t != "" {
      hide ScanNumber, ScanContents, NameRun, Writable, KeywordType, PairType, SingleType, Spelling;
      if t[0] == '$' {
        VariableWritable(t);
      } else if IsAlpha(t[0]) || t[0] == '_' {
        NameWritable(t);
      } else if StartsNumber(t) {
        NumberOk(t);
        NumberWritable(ScanNumber(t).token);
      } else if t[0] == QUOTE || t[0] == APOSTROPHE {
        ContentsAreString(t[1..], t[0]);
        StringWritable(ScanContents(t[1..], t[0]).token);
      } else {
        SymbolWritable(t);
      }
    }
  }

  lemma VariableWritable(s: string)
    requires s != "" && s[0] == '$'
    ensures Writable(ScanVariable(s).token)
  {
    VariableOk(s);
  }

  lemma NameWritable(s: string)
    requires s != "" && (IsAlpha(s[0]) || s[0] == '_')
    ensures Writable(ScanName(s).token)
  {
    var n := NameRun(s);
    assert n >= 1;
    var text := s[..n];
    NameNoKeyword(text);
    hide NameRun, KeywordType, Spelling;
    if KeywordType(text) != IDENTIFIER { KeywordText(text); }
  }

  lemma NumberWritable(t: Token)
    requires TokenOk(t) && t.kind in {INTEGER, DOUBLE}
    ensures Writable(t)
  {
  }

  lemma StringWritable(t: Token)
    requires t.kind == STRING
    ensures Writable(t)
  {
  }

  lemma SymbolWritable(s: string)
    requires s != ""
    ensures |s| >= 2 && PairType(s[..2]) != ERROR ==> Writable(Token(PairType(s[..2]), s[..2]))
    ensures SingleType(s[0]) != ERROR ==> Writable(Token(SingleType(s[0]), [s[0]]))
  {
    if |s| >= 2 { PairWritable(s[..2]); }
    SingleWritable(s[0]);
    hide Writable, PairType, SingleType;
  }

  lemma PairWritable(two: string)
    ensures PairType(two) != ERROR ==> Writable(Token(PairType(two), two))
  {
  }

  lemma SingleWritable(c: char)
    ensures SingleType(c) != ERROR ==> Writable(Token(SingleType(c), [c]))
  {
  }

  /** What the lexer returns, but for stray characters, can be written and read again. */
  lemma {:induction false} LexedWritable(s: string)
    ensures forall k :: 0 <= k < |Lex(s)| && Lex(s)[k].kind != ERROR ==> Writable(Lex(s)[k])
    decreases |s|
  {
    hide Writable, Next;
    NextWritable(s);
    NextSmaller(s);
    if Next(s).token.kind != END { LexedWritable(Next(s).rest); }
  }

  lemma NextSmaller(s: string)
    ensures Next(s).token.kind != END ==> |Next(s).rest| < |s|
  {
  }

  /** A text without stray characters and its tokens written out lex alike. */
  lemma Respaced(s: string)
    requires forall k :: 0 <= k < |Lex(s)| ==> Lex(s)[k].kind != ERROR
    ensures Lex(WrittenAll(Lex(s))) == Lex(s)
  {
    hide Lex, Writable;
    LexedWritable(s);
    WrittenLexesBack(Lex(s));
  }
}
