/**
 * What `GenerateTokens` promises about the token list as a whole: it
 * partitions the input into whitespace gaps and token spans, positions
 * increase, digit and word runs are maximal, and an all-whitespace input gives
 * the lone EOF. Also how one scan step reads a number or an operator, and the
 * input on which the lexer makes no progress.
 */
module LexingProperties {
  import opened Numerals
  import opened Lexing

  /** The offset just past a token's text. */
  function End(t: Token): nat {
    t.position + |t.lexeme|
  }

  /** `s[from..to]` is a run of skipped whitespace. */
  predicate Gap(s: string, from: nat, to: nat) {
    from <= to <= |s| && forall m :: from <= m < to ==> IsWhitespace(s[m])
  }

  /** A non-EOF token: non-empty text copied from the input at its position, not starting with whitespace. */
  predicate Spanned(s: string, t: Token) {
    && |t.lexeme| >= 1
    && End(t) <= |s|
    && s[t.position..End(t)] == t.lexeme
    && !IsWhitespace(s[t.position])
  }

  /**
   * `r` reads `s` from `i`: whitespace, a token, whitespace, a token, ...,
   * whitespace, then EOF at the end of the input. Concatenating the gaps and
   * the lexemes in order gives back `s[i..]`.
   */
  predicate Covers(s: string, i: nat, r: seq<Token>) {
    && |r| >= 1
    && Gap(s, i, r[0].position)
    && (forall k :: 0 <= k < |r| - 1 ==> Spanned(s, r[k]) && Gap(s, End(r[k]), r[k + 1].position))
    && r[|r| - 1].position == |s|
  }

  lemma {:induction false} TokenizeCovers(s: string, i: nat)
    requires IsAscii(s) && i <= |s|
    ensures Covers(s, i, Tokenize(s, i))
    decreases |s| - i
  {
    var r := Tokenize(s, i);
    var (tk, j) := ScanToken(s, i);
    TokenizeUnfold(s, i);
    if tk.kind != EOF {
      var rest := Tokenize(s, j);
      TokenizeCovers(s, j);
      assert r == [tk] + rest;
      assert WellFormedToken(tk);
      assert Spanned(s, tk);
      assert End(tk) == j;
      forall k | 1 <= k < |r| - 1
        ensures Spanned(s, r[k]) && Gap(s, End(r[k]), r[k + 1].position)
      {
        assert r[k] == rest[k - 1] && r[k + 1] == rest[k];
      }
    }
  }

  /** Token positions strictly increase along the list. */
  lemma {:induction false} PositionsIncrease(s: string, i: nat)
    requires IsAscii(s) && i <= |s|
    ensures var r := Tokenize(s, i);
      forall k, l :: 0 <= k < l < |r| ==> r[k].position < r[l].position
  {
    var r := Tokenize(s, i);
    TokenizeCovers(s, i);
    forall k, l | 0 <= k < l < |r|
      ensures r[k].position < r[l].position
    {
      AdjacentChain(s, r, k, l);
    }
  }

  lemma {:induction false} AdjacentChain(s: string, r: seq<Token>, k: nat, l: nat)
    requires exists i: nat :: Covers(s, i, r)
    requires k < l < |r|
    ensures r[k].position < r[l].position
    decreases l - k
  {
    assert Spanned(s, r[k]) && Gap(s, End(r[k]), r[k + 1].position);
    if k + 1 < l {
      AdjacentChain(s, r, k + 1, l);
    }
  }

  /**
   * A numeric literal or a word is a maximal run, and an unterminated string
   * swallows the rest of the input.
   */
  predicate Maximal(s: string, t: Token) {
    && End(t) <= |s|
    && (t.kind == NumericLiteral ==> End(t) == |s| || !IsDigit(s[End(t)]))
    && (t.kind in {Identifier, Let, Const} ==> End(t) == |s| || !IsWordChar(s[End(t)]))
    && (t.kind == Unknown && |t.lexeme| >= 1 && t.lexeme[0] == '"' ==> End(t) == |s|)
  }

  lemma ScanTokenMaximal(s: string, i: nat)
    requires IsAscii(s) && i <= |s|
    ensures Maximal(s, ScanToken(s, i).0)
  {
    var p := SkipWhitespace(s, i);
    var tk := ScanToken(s, i).0;
    if p < |s| && tk.kind == Unknown && |tk.lexeme| >= 1 && tk.lexeme[0] == '"' {
      assert s[p] == '"';
    }
  }

  lemma {:induction false} RunsAreMaximal(s: string, i: nat)
    requires IsAscii(s) && i <= |s|
    ensures var r := Tokenize(s, i);
      forall k :: 0 <= k < |r| ==> Maximal(s, r[k])
    decreases |s| - i
  {
    var r := Tokenize(s, i);
    var (tk, j) := ScanToken(s, i);
    TokenizeUnfold(s, i);
    ScanTokenMaximal(s, i);
    if tk.kind != EOF {
      RunsAreMaximal(s, j);
      var rest := Tokenize(s, j);
      assert r == [tk] + rest;
      forall k | 1 <= k < |r|
        ensures Maximal(s, r[k])
      {
        assert r[k] == rest[k - 1];
      }
    }
  }

  predicate AllWhitespace(s: string) {
    forall k :: 0 <= k < |s| ==> IsWhitespace(s[k])
  }

  /** Empty or all-whitespace input gives exactly one EOF token, at the input's length. */
  lemma WhitespaceOnly(s: string)
    requires AllWhitespace(s)
    ensures IsAscii(s) && Tokenize(s, 0) == [Token(EOF, "", |s|)]
  {
    assert IsAscii(s) by {
      forall k | 0 <= k < |s| ensures s[k] < '\U{80}' { assert IsWhitespace(s[k]); }
    }
    assert SkipWhitespace(s, 0) == |s|;
  }

  /**
   * As written, `nextToken` makes no progress at a Latin-1 letter byte: it
   * returns an empty Identifier and leaves the cursor on that byte, so the
   * next call does the same and `GenerateTokens` never reaches EOF.
   */
  lemma NextTokenStalls(s: string, i: nat)
    requires i <= |s| && Stalls(s, i)
    ensures var p := SkipWhitespace(s, i);
      && ScanToken(s, i) == (Token(Identifier, "", p), p)
      && Stalls(s, p) && ScanToken(s, p) == ScanToken(s, i)
  {
    var p := SkipWhitespace(s, i);
    assert RunEnd(s, p, IsWordChar) == p;
    assert RunEnd(s, p, IsWhitespace) == p;
    assert s[p..p] == "";
  }

  /** The UTF-8 encoding of "é" (bytes C3 A9) stalls the lexer at its first byte. */
  lemma Utf8LetterStalls()
    ensures Stalls("\U{C3}\U{A9}", 0)
    ensures ScanToken("\U{C3}\U{A9}", 0) == (Token(Identifier, "", 0), 0)
  {
    NextTokenStalls("\U{C3}\U{A9}", 0);
  }

  // Rows of the lexer's test table.

  lemma EmptyAndSpaces()
    ensures Tokenize("", 0) == [Token(EOF, "", 0)]
    ensures Tokenize("   ", 0) == [Token(EOF, "", 3)]
  {
    WhitespaceOnly("");
    WhitespaceOnly("   ");
  }

  /** A word that merely starts with a keyword is an Identifier. */
  lemma LetterIsIdentifier()
    ensures Tokenize("letter", 0) == [Token(Identifier, "letter", 0), Token(EOF, "", 6)]
  {
    var w := "letter";
    assert w !in Keywords;
    assert AllWordChars(w) && IsAscii(w) by {
      forall k | 0 <= k < |w| ensures IsWordChar(w[k]) && w[k] < '\U{80}' { assert w[k] in "letr"; }
    }
    SingleWord(w);
  }

  lemma ConstantIsIdentifier()
    ensures Tokenize("constant", 0) == [Token(Identifier, "constant", 0), Token(EOF, "", 8)]
  {
    var w := "constant";
    assert w !in Keywords;
    assert AllWordChars(w) && IsAscii(w) by {
      forall k | 0 <= k < |w| ensures IsWordChar(w[k]) && w[k] < '\U{80}' { assert w[k] in "constan"; }
    }
    SingleWord(w);
  }

  /** The exact keyword is its own kind. */
  lemma LetIsKeyword()
    ensures Tokenize("let", 0) == [Token(Let, "let", 0), Token(EOF, "", 3)]
  {
    var w := "let";
    assert w in Keywords && Keywords[w] == Let;
    assert AllWordChars(w) && IsAscii(w) by {
      forall k | 0 <= k < |w| ensures IsWordChar(w[k]) && w[k] < '\U{80}' { assert w[k] in "let"; }
    }
    SingleWord(w);
  }

  /** A lone word is one token, classified by exact match against the keywords. */
  lemma SingleWord(w: string)
    requires |w| >= 1 && IsAsciiLetter(w[0]) && AllWordChars(w) && IsAscii(w)
    ensures Tokenize(w, 0) == [Token(if w in Keywords then Keywords[w] else Identifier, w, 0), Token(EOF, "", |w|)]
  {
    var tk := Token(if w in Keywords then Keywords[w] else Identifier, w, 0);
    ScanWholeWord(w);
    TokenizeUnfold(w, 0);
    AtEnd(w);
  }

  lemma ScanWholeWord(w: string)
    requires |w| >= 1 && IsAsciiLetter(w[0]) && AllWordChars(w)
    ensures ScanToken(w, 0) == (Token(if w in Keywords then Keywords[w] else Identifier, w, 0), |w|)
  {
    assert SkipWhitespace(w, 0) == 0;
    assert RunEnd(w, 0, IsWordChar) == |w|;
    assert w[0..|w|] == w;
  }

  /** The whitespace skip stops exactly at the first byte that is not whitespace. */
  lemma SkipStopsAt(s: string, i: nat, p: nat)
    requires i <= p <= |s|
    requires forall k :: i <= k < p ==> IsWhitespace(s[k])
    requires p == |s| || !IsWhitespace(s[p])
    ensures SkipWhitespace(s, i) == p
  {
  }

  /** After whitespace, a maximal run of digits `s[p..e]` is one numeric token ending at `e`. */
  lemma DigitRunToken(s: string, i: nat, p: nat, e: nat)
    requires i <= |s| && SkipWhitespace(s, i) == p && p < e <= |s|
    requires forall k :: p <= k < e ==> IsDigit(s[k])
    requires e == |s| || !IsDigit(s[e])
    ensures ScanToken(s, i) == (Token(NumericLiteral, s[p..e], p), e)
  {
  }

  /** After whitespace, each of `+ - * / ( ) = ;` is a one-byte token of its own kind. */
  lemma OperatorCharToken(s: string, i: nat, p: nat)
    requires i <= |s| && SkipWhitespace(s, i) == p && p < |s| && s[p] in "+-*/()=;"
    ensures SingleCharKind(s[p]) != Unknown
    ensures ScanToken(s, i) == (Token(SingleCharKind(s[p]), [s[p]], p), p + 1)
  {
  }

  /** After whitespace from `i`, a maximal digit run `s[p..e]` is the next token of the list. */
  lemma NumberThen(s: string, i: nat, p: nat, e: nat)
    requires IsAscii(s) && i <= p < e <= |s|
    requires forall k :: i <= k < p ==> IsWhitespace(s[k])
    requires forall k :: p <= k < e ==> IsDigit(s[k])
    requires e == |s| || !IsDigit(s[e])
    ensures Tokenize(s, i) == [Token(NumericLiteral, s[p..e], p)] + Tokenize(s, e)
  {
    SkipStopsAt(s, i, p);
    DigitRunToken(s, i, p, e);
    TokenizeUnfold(s, i);
  }

  /** After whitespace from `i`, an operator byte at `p` is the next token of the list. */
  lemma OperatorThen(s: string, i: nat, p: nat)
    requires IsAscii(s) && i <= p < |s| && s[p] in "+-*/()=;"
    requires forall k :: i <= k < p ==> IsWhitespace(s[k])
    ensures Tokenize(s, i) == [Token(SingleCharKind(s[p]), [s[p]], p)] + Tokenize(s, p + 1)
  {
    SkipStopsAt(s, i, p);
    OperatorCharToken(s, i, p);
    TokenizeUnfold(s, i);
  }

  /**
   * `nextToken`'s letter test and `lexMultichar`'s agree on ASCII bytes, and
   * every other byte the letter test accepts is refused by `lexMultichar`:
   * these are exactly the bytes at which the lexer stalls.
   */
  lemma LetterTestsDisagreeAboveAscii(c: char)
    ensures c < '\U{80}' ==> (IsLetter(c) <==> IsAsciiLetter(c))
    ensures IsLetter(c) && !IsAsciiLetter(c) ==> '\U{80}' <= c && !IsWordChar(c)
  {
  }

  /** Each of the eight one-byte tokens has a kind of its own. */
  lemma SingleCharKindsDistinct(c: char, d: char)
    requires c != d && SingleCharKind(c) != Unknown
    ensures SingleCharKind(c) != SingleCharKind(d)
  {
  }

  /** A quote after an escaped quote closes the literal: `"a\"b"` is one StringLiteral of six bytes. */
  lemma EscapedQuoteInside()
    ensures StringToken("\"a\\\"b\"", 0) == (Token(StringLiteral, "\"a\\\"b\"", 0), 6)
  {
    var s := "\"a\\\"b\"";
    assert StringScan(s, 1) == StringScan(s, 2) == StringScan(s, 4) == StringScan(s, 5) == (6, true);
    assert s[0..6] == s;
  }

  lemma AtEnd(s: string)
    requires IsAscii(s)
    ensures Tokenize(s, |s|) == [Token(EOF, "", |s|)]
  {
    TokenizeUnfold(s, |s|);
  }
}
