/** The lexer of native right-hand sides. */
module RhsLexer {

  datatype Type =
    | UPDATE | INSERT | INSERT_LOGICAL | RETRACT | HALT | SET_FOCUS
    | IF | ELSE | FOR | IN | WHILE | SWITCH | CASE | DEFAULT | BREAK | CONTINUE
    | IDENTIFIER | VARIABLE | STRING | INTEGER | DOUBLE | TRUE | FALSE
    | LBRACE | RBRACE | LPAREN | RPAREN | COMMA | DOT | ASSIGN
    | PLUS | MINUS | STAR | SLASH | MOD | CARET | QUESTION | COLON
    | GT | LT | GE | LE | EQ | NE | AND | OR
    | END | ERROR

  datatype Token = Token(kind: Type, text: string)

  /** A token and the text after it. */
  datatype Lexeme = Lexeme(token: Token, rest: string)

  const QUOTE := '"'
  const APOSTROPHE := '\''
  const BACKSLASH := '\\'

  predicate IsAlpha(c: char) { 'a' <= c <= 'z' || 'A' <= c <= 'Z' }
  predicate IsDigit(c: char) { '0' <= c <= '9' }
  predicate IsNameChar(c: char) { IsAlpha(c) || IsDigit(c) || c == '_' }
  predicate IsBlank(c: char) { c == ' ' || c == '\t' || c == '\r' || c == '\n' }

  /** The line comment starting here is dropped up to its end of line. */
  function DropLine(s: string): (r: string)
    ensures |r| <= |s|
  {
    if s == "" || s[0] == '\n' then s else DropLine(s[1..])
  }

  predicate StartsComment(s: string) { |s| >= 2 && s[0] == '/' && s[1] == '/' }

  /** White space and comments. */
  function Skip(s: string): (r: string)
    ensures |r| <= |s|
    decreases |s|
  {
    if s == "" then s
    else if IsBlank(s[0]) then Skip(s[1..])
    else if StartsComment(s) then DropShrinks(s); Skip(DropLine(s))
    else s
  }

  lemma DropShrinks(s: string)
    requires s != "" && s[0] != '\n'
    ensures |DropLine(s)| < |s|
  {
  }

  /** The length of the leading run of name characters. */
  function NameRun(s: string): (n: nat)
    ensures n <= |s| && (forall k :: 0 <= k < n ==> IsNameChar(s[k])) && (n < |s| ==> !IsNameChar(s[n]))
  {
    if s == "" || !IsNameChar(s[0]) then 0 else 1 + NameRun(s[1..])
  }

  function DigitRun(s: string): (n: nat)
    ensures n <= |s| && (forall k :: 0 <= k < n ==> IsDigit(s[k])) && (n < |s| ==> !IsDigit(s[n]))
  {
    if s == "" || !IsDigit(s[0]) then 0 else 1 + DigitRun(s[1..])
  }

  function KeywordType(text: string): Type {
    if text == "update" then UPDATE
    else if text == "insert" then INSERT
    else if text == "insertLogical" then INSERT_LOGICAL
    else if text == "retract" then RETRACT
    else if text == "halt" then HALT
    else if text == "setFocus" then SET_FOCUS
    else if text == "if" then IF
    else if text == "else" then ELSE
    else if text == "for" then FOR
    else if text == "in" then IN
    else if text == "while" then WHILE
    else if text == "switch" then SWITCH
    else if text == "case" then CASE
    else if text == "default" then DEFAULT
    else if text == "break" then BREAK
    else if text == "continue" then CONTINUE
    else if text == "true" then TRUE
    else if text == "false" then FALSE
    else IDENTIFIER
  }

  function ScanName(s: string): Lexeme {
    var n := NameRun(s);
    Lexeme(Token(KeywordType(s[..n]), s[..n]), s[n..])
  }

  function ScanVariable(s: string): Lexeme
    requires s != ""
  {
    var n := 1 + NameRun(s[1..]);
    Lexeme(Token(VARIABLE, s[..n]), s[n..])
  }

  /** The length of a sign, the digits, and a point with more digits. */
  function IntegerPart(s: string): (n: nat)
    ensures n <= |s|
  {
    if s != "" && s[0] == '-' then 1 + DigitRun(s[1..]) else DigitRun(s)
  }

  function ScanNumber(s: string): Lexeme {
    var n := IntegerPart(s);
    if n < |s| && s[n] == '.' then
      var m := n + 1 + DigitRun(s[n + 1..]);
      Lexeme(Token(DOUBLE, s[..m]), s[m..])
    else Lexeme(Token(INTEGER, s[..n]), s[n..])
  }

  function Unescaped(c: char): char {
    if c == 'n' then '\n' else if c == 't' then '\t' else if c == 'r' then '\r' else c
  }

  /** The contents of a string up to its quote, or to the end of the input. */
  function ScanContents(s: string, quote: char): (r: Lexeme)
    ensures |r.rest| <= |s|
    decreases |s|
  {
    if s == "" then Lexeme(Token(STRING, ""), "")
    else if s[0] == quote then Lexeme(Token(STRING, ""), s[1..])
    else if s[0] == BACKSLASH && |s| >= 2 then Prefixed(Unescaped(s[1]), ScanContents(s[2..], quote))
    else Prefixed(s[0], ScanContents(s[1..], quote))
  }

  function Prefixed(c: char, l: Lexeme): (r: Lexeme)
    ensures r.rest == l.rest
  {
    Lexeme(Token(l.token.kind, [c] + l.token.text), l.rest)
  }

  function PairType(two: string): Type {
    if two == "==" then EQ
    else if two == "!=" then NE
    else if two == ">=" then GE
    else if two == "<=" then LE
    else if two == "&&" then AND
    else if two == "||" then OR
    else ERROR
  }

  function SingleType(c: char): Type {
    match c
    case '{' => LBRACE
    case '}' => RBRACE
    case '(' => LPAREN
    case ')' => RPAREN
    case ',' => COMMA
    case '.' => DOT
    case '=' => ASSIGN
    case '+' => PLUS
    case '-' => MINUS
    case '*' => STAR
    case '/' => SLASH
    case '%' => MOD
    case '^' => CARET
    case '?' => QUESTION
    case ':' => COLON
    case '>' => GT
    case '<' => LT
    case _ => ERROR
  }

  predicate StartsNumber(s: string) {
    s != "" && (IsDigit(s[0]) || (s[0] == '-' && |s| >= 2 && IsDigit(s[1])))
  }

  /** The token at the start of a text that begins with no white space. */
  function ScanHere(s: string): Lexeme
    requires s != ""
  {
    var c := s[0];
    if c == '$' then ScanVariable(s)
    else if IsAlpha(c) || c == '_' then ScanName(s)
    else if StartsNumber(s) then ScanNumber(s)
    else if c == QUOTE || c == APOSTROPHE then ScanContents(s[1..], c)
    else if |s| >= 2 && PairType(s[..2]) != ERROR then Lexeme(Token(PairType(s[..2]), s[..2]), s[2..])
    else Lexeme(Token(SingleType(c), [c]), s[1..])
  }

  /** The next token of a text. */
  function Next(s: string): (r: Lexeme)
    ensures r.token.kind == END ==> r.rest == ""
    ensures r.token.kind != END ==> |r.rest| < |s|
  {
    var t := Skip(s);
    if t == "" then Lexeme(Token(END, ""), "") else ScanHereShrinks(t); ScanHere(t)
  }

  lemma ScanHereShrinks(s: string)
    requires s != ""
    ensures |ScanHere(s).rest| < |s| && ScanHere(s).token.kind != END
  {
    hide ScanContents, KeywordType, SingleType, PairType;
    if s[0] == QUOTE || s[0] == APOSTROPHE { ContentsAreString(s[1..], s[0]); }
    NeverEnd(s[..NameRun(s)], s[0], s[..if |s| >= 2 then 2 else 0]);
  }

  lemma NeverEnd(name: string, c: char, two: string)
    ensures KeywordType(name) != END && SingleType(c) != END && PairType(two) != END
  {
  }

  lemma {:induction false} ContentsAreString(s: string, quote: char)
    ensures ScanContents(s, quote).token.kind == STRING
    decreases |s|
  {
    if s != "" && s[0] != quote {
      ContentsAreString(if s[0] == BACKSLASH && |s| >= 2 then s[2..] else s[1..], quote);
    }
  }

  /** All tokens of a text, without the end marker. */
  function Lex(s: string): seq<Token>
    decreases |s|
  {
    var l := Next(s);
    if l.token.kind == END then [] else [l.token] + Lex(l.rest)
  }

  // ---- The lexer object ----

  lemma Cut(s: string, i: nat, j: nat)
    requires i <= j <= |s|
    ensures s[i..][j - i..] == s[j..] && s[i..][..j - i] == s[i..j]
  {
  }

  /** The end of the run of name characters at `i`. */
  method NameEnd(s: string, i: nat) returns (e: nat)
    requires i <= |s|
    ensures i <= e <= |s| && e == i + NameRun(s[i..])
  {
    e := i;
    while e < |s| && IsNameChar(s[e])
      invariant i <= e <= |s| && i + NameRun(s[i..]) == e + NameRun(s[e..])
    {
      Cut(s, e, e + 1);
      e := e + 1;
    }
  }

  class Lexer {
    const input: string
    var pos: nat
    var peeked: Token
    var hasPeeked: bool
    ghost var from: nat                // where the peeked token was scanned from

    constructor (input: string)
      ensures Valid() && Rest() == input && this.input == input
    {
      this.input, pos, hasPeeked, from := input, 0, false, 0;
      peeked := Token(END, "");
    }

    ghost predicate Valid()
      reads this
    {
      && pos <= |input| && from <= |input|
      && (hasPeeked ==> Next(input[from..]) == Lexeme(peeked, input[pos..]))
    }

    /** The text whose tokens are still to be returned. */
    ghost function Rest(): string
      requires Valid()
      reads this
    {
      if hasPeeked then input[from..] else input[pos..]
    }

    method SkipWhitespace()
      requires pos <= |input|
      modifies this`pos
      ensures pos <= |input| && input[pos..] == Skip(old(input[pos..]))
    {
      ghost var s := input[pos..];
      while pos < |input|
        invariant pos <= |input| && Skip(s) == Skip(input[pos..])
        decreases |input| - pos
      {
        var c := input[pos];
        Cut(input, pos, pos + 1);
        if c == ' ' || c == '\t' || c == '\r' || c == '\n' {
          pos := pos + 1;
        } else if c == '/' && pos + 1 < |input| && input[pos + 1] == '/' {
          pos := DropComment(pos);
        } else {
          break;
        }
      }
    }

    method DropComment(p: nat) returns (q: nat)
      requires p < |input| && input[p] != '\n'
      ensures p < q <= |input| && input[q..] == DropLine(input[p..])
    {
      q := p;
      while q < |input| && input[q] != '\n'
        invariant p <= q <= |input| && DropLine(input[p..]) == DropLine(input[q..])
      {
        Cut(input, q, q + 1);
        q := q + 1;
      }
    }

    method DigitEnd(p: nat) returns (q: nat)
      requires p <= |input|
      ensures p <= q <= |input| && q == p + DigitRun(input[p..])
    {
      q := p;
      while q < |input| && IsDigit(input[q])
        invariant p <= q <= |input| && p + DigitRun(input[p..]) == q + DigitRun(input[q..])
      {
        Cut(input, q, q + 1);
        q := q + 1;
      }
    }

    method Identifier() returns (t: Token)
      requires pos <= |input|
      modifies this`pos
      ensures pos <= |input| && Lexeme(t, input[pos..]) == ScanName(old(input[pos..]))
    {
      var start := pos;
      pos := NameEnd(input, start);
      var text := input[start..pos];
      assert text == input[start..][..pos - start];
      Cut(input, start, pos);
      t := Token(KeywordType(text), text);
    }

    method Number() returns (t: Token)
      requires pos < |input|
      modifies this`pos
      ensures pos <= |input| && Lexeme(t, input[pos..]) == ScanNumber(old(input[pos..]))
    {
      hide DigitRun, IntegerPart, ScanNumber;
      var start := pos;
      var p := IntegerEnd(start);
      if p < |input| && input[p] == '.' {
        pos := DigitEnd(p + 1);
        DoubleHere(input, start, p, pos);
        t := Token(DOUBLE, input[start..pos]);
      } else {
        pos := p;
        IntegerHere(input, start, pos);
        t := Token(INTEGER, input[start..pos]);
      }
    }

    method IntegerEnd(start: nat) returns (p: nat)
      requires start < |input|
      ensures start <= p <= |input| && p == start + IntegerPart(input[start..])
    {
      hide DigitRun;
      p := start;
      if input[p] == '-' {
        p := p + 1;
        Cut(input, start, p);
      }
      p := DigitEnd(p);
    }

    method Contents(p: nat, quote: char) returns (t: Token, q: nat)
      requires p <= |input|
      ensures p <= q <= |input| && Lexeme(t, input[q..]) == ScanContents(input[p..], quote)
    {
      hide ScanContents, Joined;
      var text := "";
      q := p;
      OpenHere(ScanContents(input[p..], quote));
      while q < |input| && input[q] != quote
        invariant p <= q <= |input|
        invariant ScanContents(input[p..], quote) == Joined(text, ScanContents(input[q..], quote))
        decreases |input| - q
      {
        if input[q] == BACKSLASH && q + 1 < |input| {
          EscapeHere(input, q, text, quote);
          text := text + [Unescaped(input[q + 1])];
          q := q + 2;
        } else {
          PlainHere(input, q, text, quote);
          text := text + [input[q]];
          q := q + 1;
        }
      }
      CloseHere(input, q, text, quote);
      if q < |input| { q := q + 1; }
      t := Token(STRING, text);
    }

    /** `next` */
    method NextToken() returns (t: Token)
      requires Valid()
      modifies this
      ensures Valid() && !hasPeeked && Next(old(Rest())) == Lexeme(t, Rest())
    {
      if hasPeeked {
        hasPeeked := false;
        return peeked;
      }
      SkipWhitespace();
      if pos >= |input| { return Token(END, ""); }
      t := Here();
    }

    /** The token at a position that holds no white space. */
    method Here() returns (t: Token)
      requires pos < |input|
      modifies this`pos
      ensures pos <= |input| && Lexeme(t, input[pos..]) == ScanHere(old(input[pos..]))
    {
      hide ScanHere, NameRun, ScanContents, ScanNumber, ScanName, PairType, SingleType;
      var c, start := input[pos], pos;
      if c == '$' {
        pos := NameEnd(input, start + 1);
        VariableHere(input, start, pos);
        return Token(VARIABLE, input[start..pos]);
      }
      if IsAlpha(c) || c == '_' {
        NameHere(input[start..]);
        t := Identifier();
        return;
      }
      if IsDigit(c) || (c == '-' && pos + 1 < |input| && IsDigit(input[pos + 1])) {
        NumberHere(input[start..]);
        t := Number();
        return;
      }
      if c == QUOTE || c == APOSTROPHE {
        StringHere(input, start);
        t, pos := Contents(start + 1, c);
        return;
      }
      SymbolHere(input, start);
      if pos + 1 < |input| {
        var two := input[pos..pos + 2];
        if PairType(two) != ERROR {
          pos := pos + 2;
          return Token(PairType(two), two);
        }
      }
      pos := pos + 1;
      return Token(SingleType(c), [c]);
    }

    /** `peek`: the next token, which stays next. */
    method Peek() returns (t: Token)
      requires Valid()
      modifies this
      ensures Valid() && Rest() == old(Rest()) && t == Next(Rest()).token
    {
      if !hasPeeked {
        ghost var at := pos;
        var next := NextToken();
        peeked, hasPeeked, from := next, true, at;
      }
      return peeked;
    }
  }

  // ---- Values read by the loops above ----

  lemma IntegerHere(input: string, start: nat, p: nat)
    requires start <= p <= |input| && p == start + IntegerPart(input[start..]) && (p < |input| ==> input[p] != '.')
    ensures ScanNumber(input[start..]) == Lexeme(Token(INTEGER, input[start..p]), input[p..])
  {
    hide IntegerPart;
    Cut(input, start, p);
  }

  lemma DoubleHere(input: string, start: nat, p: nat, q: nat)
    requires start <= p < q <= |input| && p == start + IntegerPart(input[start..]) && input[p] == '.' && q == p + 1 + DigitRun(input[p + 1..])
    ensures ScanNumber(input[start..]) == Lexeme(Token(DOUBLE, input[start..q]), input[q..])
  {
    hide IntegerPart, DigitRun;
    Cut(input, start, p + 1);
    Cut(input, start, q);
    assert input[start..][p - start] == '.';
  }

  lemma VariableHere(input: string, start: nat, p: nat)
    requires start < p <= |input| && input[start] == '$' && p == start + 1 + NameRun(input[start + 1..])
    ensures ScanHere(input[start..]) == Lexeme(Token(VARIABLE, input[start..p]), input[p..])
  {
    hide NameRun;
    Cut(input, start, start + 1);
    Cut(input, start, p);
  }

  lemma NameHere(s: string)
    requires s != "" && (IsAlpha(s[0]) || s[0] == '_')
    ensures ScanHere(s) == ScanName(s)
  {
  }

  lemma NumberHere(s: string)
    requires StartsNumber(s)
    ensures ScanHere(s) == ScanNumber(s)
  {
  }

  lemma StringHere(input: string, start: nat)
    requires start < |input| && (input[start] == QUOTE || input[start] == APOSTROPHE)
    ensures ScanHere(input[start..]) == ScanContents(input[start + 1..], input[start])
  {
    hide ScanContents;
    Cut(input, start, start + 1);
  }

  lemma SymbolHere(input: string, start: nat)
    requires start < |input| && input[start] != '$' && !IsAlpha(input[start]) && input[start] != '_'
    requires !IsDigit(input[start]) && !(input[start] == '-' && start + 1 < |input| && IsDigit(input[start + 1]))
    requires input[start] != QUOTE && input[start] != APOSTROPHE
    ensures ScanHere(input[start..]) ==
      if start + 1 < |input| && PairType(input[start..start + 2]) != ERROR then Lexeme(Token(PairType(input[start..start + 2]), input[start..start + 2]), input[start + 2..])
      else Lexeme(Token(SingleType(input[start]), [input[start]]), input[start + 1..])
  {
    hide PairType, SingleType;
    Cut(input, start, start + 1);
    if start + 1 < |input| { Cut(input, start, start + 2); }
  }

  function Joined(text: string, l: Lexeme): Lexeme { Lexeme(Token(l.token.kind, text + l.token.text), l.rest) }

  lemma JoinedPrefixed(text: string, c: char, l: Lexeme)
    ensures Joined(text, Prefixed(c, l)) == Joined(text + [c], l)
  {
    assert text + ([c] + l.token.text) == text + [c] + l.token.text;
  }

  lemma OpenHere(l: Lexeme)
    ensures Joined("", l) == l
  {
  }

  lemma EscapeHere(input: string, q: nat, text: string, quote: char)
    requires q + 1 < |input| && input[q] == BACKSLASH && input[q] != quote
    ensures Joined(text, ScanContents(input[q..], quote)) == Joined(text + [Unescaped(input[q + 1])], ScanContents(input[q + 2..], quote))
  {
    Cut(input, q, q + 2);
    JoinedPrefixed(text, Unescaped(input[q + 1]), ScanContents(input[q + 2..], quote));
  }

  lemma PlainHere(input: string, q: nat, text: string, quote: char)
    requires q < |input| && input[q] != quote && (input[q] != BACKSLASH || q + 1 == |input|)
    ensures Joined(text, ScanContents(input[q..], quote)) == Joined(text + [input[q]], ScanContents(input[q + 1..], quote))
  {
    Cut(input, q, q + 1);
    JoinedPrefixed(text, input[q], ScanContents(input[q + 1..], quote));
  }

  lemma CloseHere(input: string, q: nat, text: string, quote: char)
    requires q <= |input| && (q < |input| ==> input[q] == quote)
    ensures Joined(text, ScanContents(input[q..], quote)) == Lexeme(Token(STRING, text), input[if q < |input| then q + 1 else q..])
  {
    assert text + "" == text;
    if q < |input| { Cut(input, q, q + 1); }
  }
}
