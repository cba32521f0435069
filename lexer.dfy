/**
 * The lexer of lexer/lexer.go. The source text is a `string` whose characters
 * stand for the bytes of the Go string.
 *
 * The scanning rules are given once, as functions over the source and an
 * index (`SkipWhitespace`, `NumberToken`, `StringToken`, `WordToken`,
 * `ScanToken`, `Tokenize`); the class `Lexer` keeps the Go code's mutable
 * cursor, and each of its methods is proved to move the cursor and return the
 * token those functions describe.
 */
module Lexing {
  import opened Numerals
  import opened Sequences

  datatype TokenKind =
    | EOF
    | NumericLiteral
    | Plus
    | Minus
    | Star
    | Slash
    | LParen
    | RParen
    | Unknown
    | Let
    | Const
    | Identifier
    | Equals
    | Semicolon
    | StringLiteral

  /** `Position` is the byte offset of the token's first character. */
  datatype Token = Token(kind: TokenKind, lexeme: string, position: nat)

  const Keywords: map<string, TokenKind> := map["let" := Let, "const" := Const]

  predicate IsWhitespace(c: char) {
    c == ' ' || c == '\n' || c == '\t' || c == '\r'
  }

  predicate IsAsciiLetter(c: char) {
    ('a' <= c <= 'z') || ('A' <= c <= 'Z')
  }

  /**
   * `unicode.IsLetter` applied to a single byte: the ASCII letters and the
   * Latin-1 letters U+00AA, U+00B5, U+00BA and U+00C0..U+00FF except U+00D7
   * and U+00F7.
   */
  predicate IsLetter(c: char) {
    || IsAsciiLetter(c)
    || c == '\U{AA}' || c == '\U{B5}' || c == '\U{BA}'
    || ('\U{C0}' <= c <= '\U{FF}' && c != '\U{D7}' && c != '\U{F7}')
  }

  /** The bytes `lexMultichar` keeps consuming. */
  predicate IsWordChar(c: char) {
    IsAsciiLetter(c) || IsDigit(c) || c == '_'
  }

  predicate IsAscii(s: string) {
    forall k :: 0 <= k < |s| ==> s[k] < '\U{80}'
  }

  predicate AllWordChars(s: string) {
    forall k :: 0 <= k < |s| ==> IsWordChar(s[k])
  }

  /** The kind of a token made of one byte that starts no longer token. */
  function SingleCharKind(c: char): (k: TokenKind)
    ensures k != Unknown <==> c in "+-*/()=;"
    ensures k != Unknown ==> k !in {EOF, NumericLiteral, Identifier, Let, Const, StringLiteral}
  {
    match c
    case '+' => Plus
    case '-' => Minus
    case '*' => Star
    case '/' => Slash
    case '(' => LParen
    case ')' => RParen
    case '=' => Equals
    case ';' => Semicolon
    case _ => Unknown
  }

  /** What the lexer guarantees of every token it emits (for input it terminates on). */
  predicate WellFormedToken(t: Token) {
    match t.kind
    case EOF => t.lexeme == ""
    case NumericLiteral => |t.lexeme| >= 1 && AllDigits(t.lexeme)
    case Plus => t.lexeme == "+"
    case Minus => t.lexeme == "-"
    case Star => t.lexeme == "*"
    case Slash => t.lexeme == "/"
    case LParen => t.lexeme == "("
    case RParen => t.lexeme == ")"
    case Equals => t.lexeme == "="
    case Semicolon => t.lexeme == ";"
    case Let => t.lexeme == "let"
    case Const => t.lexeme == "const"
    case Identifier =>
      |t.lexeme| >= 1 && IsAsciiLetter(t.lexeme[0]) && AllWordChars(t.lexeme) && t.lexeme !in Keywords
    case StringLiteral =>
      |t.lexeme| >= 2 && t.lexeme[0] == '"' && t.lexeme[|t.lexeme| - 1] == '"'
    case Unknown =>
      && |t.lexeme| >= 1
      && (|| t.lexeme[0] == '"'
          || (&& |t.lexeme| == 1
              && SingleCharKind(t.lexeme[0]) == Unknown
              && !IsDigit(t.lexeme[0]) && !IsLetter(t.lexeme[0]) && !IsWhitespace(t.lexeme[0])))
  }

  /** The end of the longest run of `inRun` characters starting at `i`. */
  function RunEnd(s: string, i: nat, inRun: char -> bool): (e: nat)
    requires i <= |s|
    ensures i <= e <= |s|
    ensures forall k :: i <= k < e ==> inRun(s[k])
    ensures e == |s| || !inRun(s[e])
    decreases |s| - i
  {
    if i < |s| && inRun(s[i]) then RunEnd(s, i + 1, inRun) else i
  }

  /** Where `skipWhitespaces` leaves the cursor. */
  function SkipWhitespace(s: string, i: nat): (p: nat)
    requires i <= |s|
    ensures i <= p <= |s|
    ensures forall k :: i <= k < p ==> IsWhitespace(s[k])
    ensures p == |s| || !IsWhitespace(s[p])
  {
    RunEnd(s, i, IsWhitespace)
  }

  /**
   * The scan of a string literal's body from `i` (just after the opening
   * quote): a backslash with a byte after it skips that pair, the first other
   * `"` closes the literal. Gives the index after the scan and whether a
   * closing quote was found.
   */
  function StringScan(s: string, i: nat): (r: (nat, bool))
    requires i <= |s|
    ensures i <= r.0 <= |s|
    ensures r.1 ==> i < r.0 && s[r.0 - 1] == '"'
    ensures !r.1 ==> r.0 == |s|
    decreases |s| - i
  {
    if i >= |s| then (i, false)
    else if s[i] == '\\' && i + 1 < |s| then StringScan(s, i + 2)
    else if s[i] == '"' then (i + 1, true)
    else StringScan(s, i + 1)
  }

  /**
   * Without backslashes the scan is plain: it closes exactly when a `"`
   * follows, and at the first one.
   */
  lemma {:induction false} StringScanWithoutEscapes(s: string, i: nat)
    requires i <= |s| && forall k :: i <= k < |s| ==> s[k] != '\\'
    ensures var r := StringScan(s, i);
      (r.1 <==> '"' in s[i..]) && (r.1 ==> '"' !in s[i..r.0 - 1])
    decreases |s| - i
  {
    if i < |s| && s[i] != '"' {
      StringScanWithoutEscapes(s, i + 1);
      var r := StringScan(s, i + 1);
      assert s[i..] == [s[i]] + s[i + 1..];
      assert r.1 ==> s[i..r.0 - 1] == [s[i]] + s[i + 1..r.0 - 1];
    }
  }

  /** The number of backslashes immediately before `q`, counting no further back than `i`. */
  function BackslashRun(s: string, i: nat, q: nat): nat
    requires i <= q <= |s|
    decreases q - i
  {
    if i < q && s[q - 1] == '\\' then BackslashRun(s, i, q - 1) + 1 else 0
  }

  /**
   * A quote at `q` in a string body that starts at `i` is unescaped when an
   * even number of backslashes (within the body) comes right before it.
   */
  predicate Unescaped(s: string, i: nat, q: nat)
    requires i <= q < |s|
  {
    s[q] == '"' && BackslashRun(s, i, q) % 2 == 0
  }

  /** No quote at an index in `[from, to)` is unescaped, in a body that starts at `i`. */
  predicate NoneUnescaped(s: string, i: nat, from: nat, to: nat)
    requires i <= from && to <= |s|
  {
    forall q :: from <= q < to ==> !Unescaped(s, i, q)
  }

  /**
   * The scan of a string body from `i`, resumed at `k`, where no quote of
   * `s[i..k]` is unescaped and `k` does not sit inside a backslash pair:
   * it closes at the first unescaped quote from `k`, and runs to the end of
   * the input exactly when there is none.
   */
  lemma {:induction false} StringScanFrom(s: string, i: nat, k: nat)
    requires i <= k <= |s|
    requires k < |s| ==> BackslashRun(s, i, k) % 2 == 0
    ensures var r := StringScan(s, k);
      && (r.1 ==> k < r.0 && Unescaped(s, i, r.0 - 1))
      && (r.1 ==> NoneUnescaped(s, i, k, r.0 - 1))
      && (!r.1 ==> NoneUnescaped(s, i, k, |s|))
    decreases |s| - k
  {
    if k < |s| {
      if s[k] == '\\' && k + 1 < |s| {
        assert BackslashRun(s, i, k + 1) == BackslashRun(s, i, k) + 1;
        if k + 2 < |s| && s[k + 1] == '\\' {
          assert BackslashRun(s, i, k + 2) == BackslashRun(s, i, k + 1) + 1;
        }
        StringScanFrom(s, i, k + 2);
      } else if s[k] != '"' {
        StringScanFrom(s, i, k + 1);
      }
    }
  }

  /**
   * The escape rule of `lexString` in general: the body from `i` closes at
   * its first unescaped quote, a backslash with a byte after it never lets
   * the following quote close it, and the scan reaches the end of the input
   * exactly when no unescaped quote remains.
   */
  lemma StringScanCloses(s: string, i: nat)
    requires i <= |s|
    ensures var r := StringScan(s, i);
      && (r.1 ==> Unescaped(s, i, r.0 - 1) && NoneUnescaped(s, i, i, r.0 - 1))
      && (!r.1 <==> NoneUnescaped(s, i, i, |s|))
  {
    StringScanFrom(s, i, i);
  }

  /** The token `lexNumericLiteral` produces at `p`: the maximal run of digits. */
  function NumberToken(s: string, p: nat): (r: (Token, nat))
    requires p <= |s|
    ensures r.0.kind == NumericLiteral && r.0.position == p
    ensures p <= r.1 <= |s| && r.0.lexeme == s[p..r.1]
    ensures AllDigits(r.0.lexeme)
    ensures r.1 == |s| || !IsDigit(s[r.1])
    ensures p < |s| && IsDigit(s[p]) ==> |r.0.lexeme| >= 1
  {
    var e := RunEnd(s, p, IsDigit);
    (Token(NumericLiteral, s[p..e], p), e)
  }

  /**
   * The token `lexString` produces for the quote at `p`: a StringLiteral up to
   * and including the closing quote, or, when the input ends first, an
   * Unknown token spanning the rest of the input.
   */
  function StringToken(s: string, p: nat): (r: (Token, nat))
    requires p < |s|
    ensures r.0.position == p && p < r.1 <= |s| && r.0.lexeme == s[p..r.1]
    ensures r.0.kind == StringLiteral || r.0.kind == Unknown
    ensures r.0.kind == StringLiteral ==> p + 2 <= r.1 && s[r.1 - 1] == '"'
    ensures r.0.kind == Unknown ==> r.1 == |s|
    ensures r.0.kind == StringLiteral ==>
              Unescaped(s, p + 1, r.1 - 1) && NoneUnescaped(s, p + 1, p + 1, r.1 - 1)
    ensures r.0.kind == Unknown <==> NoneUnescaped(s, p + 1, p + 1, |s|)
  {
    StringScanCloses(s, p + 1);
    var (e, closed) := StringScan(s, p + 1);
    (Token(if closed then StringLiteral else Unknown, s[p..e], p), e)
  }

  /**
   * The token `lexMultichar` produces at `p`: the maximal run of ASCII
   * letters, digits and underscores, a keyword on an exact match and an
   * Identifier otherwise.
   */
  function WordToken(s: string, p: nat): (r: (Token, nat))
    requires p <= |s|
    ensures r.0.position == p && p <= r.1 <= |s| && r.0.lexeme == s[p..r.1]
    ensures AllWordChars(r.0.lexeme)
    ensures r.1 == |s| || !IsWordChar(s[r.1])
    ensures r.0.kind == Let || r.0.kind == Const || r.0.kind == Identifier
    ensures r.0.kind == Let <==> r.0.lexeme == "let"
    ensures r.0.kind == Const <==> r.0.lexeme == "const"
  {
    var e := RunEnd(s, p, IsWordChar);
    var lexeme := s[p..e];
    (Token(if lexeme in Keywords then Keywords[lexeme] else Identifier, lexeme, p), e)
  }

  /**
   * The byte at which `nextToken` makes no progress: after the whitespace it
   * finds a byte `unicode.IsLetter` accepts but `lexMultichar` does not.
   */
  predicate Stalls(s: string, i: nat)
    requires i <= |s|
  {
    var p := SkipWhitespace(s, i);
    p < |s| && IsLetter(s[p]) && !IsAsciiLetter(s[p])
  }

  /** `nextToken`: skip whitespace, then dispatch on the first byte. Gives the token and the new cursor. */
  function ScanToken(s: string, i: nat): (r: (Token, nat))
    requires i <= |s|
    ensures r.1 <= |s|
    ensures r.0.kind == EOF <==> SkipWhitespace(s, i) == |s|
    ensures r.0.kind == EOF ==> r.0 == Token(EOF, "", |s|) && r.1 == |s|
    ensures r.0.kind != EOF ==>
              && r.0.position == SkipWhitespace(s, i)
              && r.1 == r.0.position + |r.0.lexeme|
              && r.0.lexeme == s[r.0.position..r.1]
    ensures !Stalls(s, i) && r.0.kind != EOF ==> i < r.1
  {
    var p := SkipWhitespace(s, i);
    if p >= |s| then (Token(EOF, "", p), p)
    else if IsDigit(s[p]) then NumberToken(s, p)
    else if s[p] == '"' then StringToken(s, p)
    else if IsLetter(s[p]) then
      var r := WordToken(s, p);
      assert !Stalls(s, i) ==> IsWordChar(s[p]) && |r.0.lexeme| >= 1;
      r
    else (Token(SingleCharKind(s[p]), [s[p]], p), p + 1)
  }

  /** Unless the lexer stalls, the token it scans is one of the shapes `WellFormedToken` lists. */
  lemma ScanTokenWellFormed(s: string, i: nat)
    requires i <= |s| && !Stalls(s, i)
    ensures WellFormedToken(ScanToken(s, i).0)
  {
    var p := SkipWhitespace(s, i);
    var tk := ScanToken(s, i).0;
    if p < |s| && !IsDigit(s[p]) && s[p] != '"' {
      if IsLetter(s[p]) {
        var r := WordToken(s, p);
        assert IsWordChar(s[p]) && r.0.lexeme[0] == s[p];
      } else {
        assert tk == Token(SingleCharKind(s[p]), [s[p]], p);
      }
    }
  }

  /**
   * `GenerateTokens` from cursor `i`: tokens up to and including the first
   * EOF. It terminates only when no token starts at a stalling byte, so the
   * model asks for ASCII input.
   */
  function Tokenize(s: string, i: nat): (r: seq<Token>)
    requires IsAscii(s) && i <= |s|
    ensures |r| >= 1 && r[|r| - 1] == Token(EOF, "", |s|)
    ensures forall k :: 0 <= k < |r| - 1 ==> r[k].kind != EOF
    ensures forall k :: 0 <= k < |r| ==> WellFormedToken(r[k])
    decreases |s| - i
  {
    assert !Stalls(s, i) by {
      var p := SkipWhitespace(s, i);
      if p < |s| { assert s[p] < '\U{80}'; }
    }
    ScanTokenWellFormed(s, i);
    var (tk, j) := ScanToken(s, i);
    if tk.kind == EOF then [tk] else [tk] + Tokenize(s, j)
  }

  /** One step of `Tokenize`: the scanned token, then the rest unless it was EOF. */
  lemma TokenizeUnfold(s: string, i: nat)
    requires IsAscii(s) && i <= |s|
    ensures var (tk, j) := ScanToken(s, i);
      && (tk.kind == EOF ==> Tokenize(s, i) == [tk])
      && (tk.kind != EOF ==> i < j <= |s| && Tokenize(s, i) == [tk] + Tokenize(s, j))
  {
    assert !Stalls(s, i) by {
      var p := SkipWhitespace(s, i);
      if p < |s| { assert s[p] < '\U{80}'; }
    }
  }

  class Lexer {
    const source: string
    const max: nat
    var index: nat

    ghost predicate Valid()
      reads this
    {
      max == |source| && index <= max
    }

    /** `NewLexer`. */
    constructor (source: string)
      ensures Valid() && this.source == source && index == 0
    {
      this.source := source;
      max := |source|;
      index := 0;
    }

    method GenerateTokens() returns (tokens: seq<Token>)
      requires Valid() && IsAscii(source)
      modifies this
      ensures Valid() && tokens == Tokenize(source, old(index)) && index == max
    {
      tokens := [];
      while true
        invariant Valid()
        invariant tokens + Tokenize(source, index) == Tokenize(source, old(index))
        decreases max - index
      {
        ghost var before := index;
        ghost var done := tokens;
        var current := NextToken();
        TokenizeUnfold(source, before);
        tokens := tokens + [current];
        if current.kind == EOF {
          break;
        }
        Associative(done, [current], Tokenize(source, index));
      }
    }

    method NextToken() returns (tk: Token)
      requires Valid()
      modifies this
      ensures Valid() && (tk, index) == ScanToken(source, old(index))
    {
      SkipWhitespaces();
      if index >= max {
        return Token(EOF, "", index);
      }
      var current := source[index];
      if IsDigit(current) {
        tk := LexNumericLiteral();
        return;
      }
      if current == '"' {
        tk := LexString();
        return;
      }
      if IsLetter(current) {
        tk := LexMultichar();
        return;
      }
      tk := Token(SingleCharKind(current), [current], index);
      index := index + 1;
    }

    method LexString() returns (tk: Token)
      requires Valid() && index < max
      modifies this
      ensures Valid() && (tk, index) == StringToken(source, old(index))
    {
      var start := index;
      index := index + 1;
      while index < max
        invariant Valid() && start < index
        invariant StringScan(source, index) == StringScan(source, start + 1)
        decreases max - index
      {
        var c := source[index];
        if c == '\\' && index + 1 < max {
          index := index + 2;
          continue;
        }
        if c == '"' {
          index := index + 1;
          return Token(StringLiteral, source[start..index], start);
        }
        index := index + 1;
      }
      tk := Token(Unknown, source[start..index], start);
    }

    method LexMultichar() returns (tk: Token)
      requires Valid()
      modifies this
      ensures Valid() && (tk, index) == WordToken(source, old(index))
    {
      var start := index;
      while index < max
        invariant Valid() && start <= index
        invariant RunEnd(source, index, IsWordChar) == RunEnd(source, start, IsWordChar)
        decreases max - index
      {
        var c := source[index];
        if !IsAsciiLetter(c) && !IsDigit(c) && c != '_' {
          break;
        }
        index := index + 1;
      }
      var lexeme := source[start..index];
      var kind := if lexeme in Keywords then Keywords[lexeme] else Identifier;
      tk := Token(kind, lexeme, start);
    }

    method SkipWhitespaces()
      requires Valid()
      modifies this
      ensures Valid() && index == SkipWhitespace(source, old(index))
    {
      while index < max
        invariant Valid()
        invariant SkipWhitespace(source, index) == SkipWhitespace(source, old(index))
        decreases max - index
      {
        var c := source[index];
        if c == ' ' || c == '\n' || c == '\t' || c == '\r' {
          index := index + 1;
          continue;
        }
        break;
      }
    }

    method LexNumericLiteral() returns (tk: Token)
      requires Valid()
      modifies this
      ensures Valid() && (tk, index) == NumberToken(source, old(index))
    {
      var start := index;
      while index < max
        invariant Valid() && start <= index
        invariant RunEnd(source, index, IsDigit) == RunEnd(source, start, IsDigit)
        decreases max - index
      {
        if !IsDigit(source[index]) {
          break;
        }
        index := index + 1;
      }
      tk := Token(NumericLiteral, source[start..index], start);
    }
  }
}
