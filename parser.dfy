/**
 * The recursive-descent parser of parser/parser.go.
 *
 * The grammar is given once, as mutually recursive functions over the token
 * list and a cursor (`Primary`, `Multiplicative`, `MultiplicativeLoop`,
 * `Additive`, `AdditiveLoop`, `Statement`, `Statements`). Each gives the
 * result and where the cursor is left, on success and on error alike. The
 * class `Parser` keeps the Go code's mutable cursor, and each of its methods
 * is proved to compute what the matching function describes.
 */
module Parsing {
  import opened Results
  import opened Numerals
  import opened Ast
  import opened Lexing
  import opened Sequences

  /** The two ways a parse can fail: a syntax error at a token, or a failed numeric conversion. */
  datatype ParseError =
    | UnexpectedToken(lexeme: string, position: nat)
    | InvalidNumber(lexeme: string)

  /** What a parsing function returns: the node or the error, and the cursor afterwards. */
  datatype Step = Step(result: Result<Node, ParseError>, next: nat)

  /** What `Parse` returns: the statements completed, the error if any, and the cursor afterwards. */
  datatype Outcome = Outcome(statements: seq<Node>, error: Option<ParseError>, next: nat)

  predicate IsOperatorKind(k: TokenKind) {
    k == Plus || k == Minus || k == Star || k == Slash
  }

  /**
   * What the parser needs of its token list: it is non-empty and ends in
   * EOF (so `peek` always has a token to return) and operator tokens have a
   * first byte to take as the operator.
   */
  predicate TokenStream(toks: seq<Token>) {
    && |toks| >= 1
    && toks[|toks| - 1].kind == EOF
    && forall k :: 0 <= k < |toks| && IsOperatorKind(toks[k].kind) ==> |toks[k].lexeme| >= 1
  }

  /**
   * What the parser relies on of a token beyond its kind: an operator token
   * is its operator byte alone and a numeric literal is a non-empty digit run.
   * Every token the lexer produces is of this shape.
   */
  predicate Parsable(t: Token) {
    && (IsOperatorKind(t.kind) ==> |t.lexeme| == 1 && IsOperator(t.lexeme[0]))
    && (t.kind == NumericLiteral ==> |t.lexeme| >= 1 && AllDigits(t.lexeme))
  }

  predicate AllParsable(toks: seq<Token>) {
    forall k :: 0 <= k < |toks| ==> Parsable(toks[k])
  }

  /** `peek`: the token under the cursor, or the final token once the cursor is at or past it. */
  function PeekAt(toks: seq<Token>, i: nat): (t: Token)
    requires |toks| >= 1
    ensures t in toks
    ensures i >= |toks| - 1 ==> t == toks[|toks| - 1]
    ensures TokenStream(toks) && t.kind != EOF ==> i < |toks| - 1 && t == toks[i]
  {
    if i < |toks| then toks[i] else toks[|toks| - 1]
  }

  /** `isExpected`: the token's kind is one of `expected` (only membership matters, so the kinds form a set). */
  predicate IsExpected(t: Token, expected: set<TokenKind>) {
    t.kind in expected
  }

  /** `isValidExpressionFollower`: what may come right after a primary expression. */
  predicate IsValidExpressionFollower(t: Token) {
    IsExpected(t, {Plus, Minus, Star, Slash, RParen, EOF})
  }

  /** `handleUnexpectedToken`. */
  function HandleUnexpectedToken(t: Token): (e: ParseError)
    ensures e.UnexpectedToken? && e.lexeme == t.lexeme && e.position == t.position
  {
    UnexpectedToken(t.lexeme, t.position)
  }

  /** The text of a syntax error, as `fmt.Errorf` formats it. */
  function Message(e: ParseError): string
    requires e.UnexpectedToken?
  {
    "Unexpected token '" + e.lexeme + "' at position " + Decimal(e.position) + "."
  }

  /**
   * The message of the error raised at a token quotes the token's lexeme and
   * renders its position in decimal, so the position reads back from it.
   */
  lemma MessageNamesToken(t: Token)
    ensures var d := Decimal(t.position);
      && Message(HandleUnexpectedToken(t)) == "Unexpected token '" + t.lexeme + "' at position " + d + "."
      && Canonical(d) && Value(d) == t.position
  {
    ValueOfDecimal(t.position);
  }

  /**
   * A token that may follow an expression can never start an operand, so
   * two operands side by side are always rejected; and every operator, `)`
   * and EOF may follow one.
   */
  lemma FollowerCannotStartOperand(t: Token)
    ensures IsValidExpressionFollower(t) ==> t.kind !in {NumericLiteral, Identifier, LParen}
    ensures IsOperatorKind(t.kind) || t.kind == RParen || t.kind == EOF ==> IsValidExpressionFollower(t)
    ensures IsExpected(t, {RParen}) <==> t.kind == RParen
  {
  }

  /** The error names a token of the list at or after the cursor `i`. */
  predicate ErrorAtOrAfter(toks: seq<Token>, i: nat, e: ParseError) {
    e.UnexpectedToken? ==> exists k :: i <= k < |toks| && e == HandleUnexpectedToken(toks[k])
  }

  /** `parsePrimaryExpression`. */
  function Primary(toks: seq<Token>, i: nat): (s: Step)
    requires TokenStream(toks) && i < |toks|
    ensures s.result.Ok? ==> i < s.next < |toks| && IsValidExpressionFollower(PeekAt(toks, s.next))
    decreases |toks| - i, 0
  {
    var t := PeekAt(toks, i);
    match t.kind
    case Identifier =>
      var follower := PeekAt(toks, i + 1);
      if !IsValidExpressionFollower(follower) then Step(Err(HandleUnexpectedToken(follower)), i + 1)
      else Step(Ok(Ident(t.lexeme)), i + 1)
    case NumericLiteral =>
      (match ParseNumber(t.lexeme)
       case None => Step(Err(InvalidNumber(t.lexeme)), i)
       case Some(v) =>
         var follower := PeekAt(toks, i + 1);
         if !IsValidExpressionFollower(follower) then Step(Err(HandleUnexpectedToken(follower)), i + 1)
         else Step(Ok(Num(v)), i + 1))
    case LParen =>
      var inner := Additive(toks, i + 1);
      if inner.result.Err? then inner
      else
        var closing := PeekAt(toks, inner.next);
        if !IsExpected(closing, {RParen}) then Step(Err(HandleUnexpectedToken(closing)), inner.next)
        else
          var follower := PeekAt(toks, inner.next + 1);
          if !IsValidExpressionFollower(follower) then Step(Err(HandleUnexpectedToken(follower)), inner.next + 1)
          else Step(Ok(inner.result.value), inner.next + 1)
    case _ =>
      Step(Err(HandleUnexpectedToken(t)), i + 1)
  }

  /** `parseMultiplicativeExpression`: a primary, then the loop over `*` and `/`. */
  function Multiplicative(toks: seq<Token>, i: nat): (s: Step)
    requires TokenStream(toks) && i < |toks|
    ensures s.result.Ok? ==> i < s.next < |toks|
    ensures s.result.Ok? ==> PeekAt(toks, s.next).kind in {Plus, Minus, RParen, EOF}
    decreases |toks| - i, 1
  {
    var first := Primary(toks, i);
    if first.result.Err? then first
    else MultiplicativeLoop(toks, first.result.value, first.next)
  }

  /** The loop of `parseMultiplicativeExpression` with `left` built so far and the cursor at `j`. */
  function MultiplicativeLoop(toks: seq<Token>, left: Node, j: nat): (s: Step)
    requires TokenStream(toks) && j < |toks| && IsValidExpressionFollower(PeekAt(toks, j))
    ensures s.result.Ok? ==> j <= s.next < |toks|
    ensures s.result.Ok? ==> PeekAt(toks, s.next).kind in {Plus, Minus, RParen, EOF}
    decreases |toks| - j, 3
  {
    var t := PeekAt(toks, j);
    if t.kind != Star && t.kind != Slash then Step(Ok(left), j)
    else
      var operator := t.lexeme[0];
      var right := Primary(toks, j + 1);
      if right.result.Err? then right
      else MultiplicativeLoop(toks, Binary(left, operator, right.result.value), right.next)
  }

  /** `parseAdditiveExpression`: a multiplicative expression, then the loop over `+` and `-`. */
  function Additive(toks: seq<Token>, i: nat): (s: Step)
    requires TokenStream(toks) && i < |toks|
    ensures s.result.Ok? ==> i < s.next < |toks|
    ensures s.result.Ok? ==> PeekAt(toks, s.next).kind in {RParen, EOF}
    decreases |toks| - i, 2
  {
    var first := Multiplicative(toks, i);
    if first.result.Err? then first
    else AdditiveLoop(toks, first.result.value, first.next)
  }

  /** The loop of `parseAdditiveExpression` with `left` built so far and the cursor at `j`. */
  function AdditiveLoop(toks: seq<Token>, left: Node, j: nat): (s: Step)
    requires TokenStream(toks) && j < |toks| && PeekAt(toks, j).kind in {Plus, Minus, RParen, EOF}
    ensures s.result.Ok? ==> j <= s.next < |toks|
    ensures s.result.Ok? ==> PeekAt(toks, s.next).kind in {RParen, EOF}
    decreases |toks| - j, 3
  {
    var t := PeekAt(toks, j);
    if t.kind != Plus && t.kind != Minus then Step(Ok(left), j)
    else
      var operator := t.lexeme[0];
      var right := Multiplicative(toks, j + 1);
      if right.result.Err? then right
      else AdditiveLoop(toks, Binary(left, operator, right.result.value), right.next)
  }

  /*
   * Beyond the cursor: on lexer output every expression built is well
   * formed and no numeric conversion fails, and every syntax error names a
   * token at or after where the parse began. One lemma per grammar function,
   * by the same mutual recursion.
   */

  /** An error at or after `j` is also at or after any earlier `i`. */
  lemma ErrorLater(toks: seq<Token>, i: nat, j: nat, e: ParseError)
    requires i <= j && ErrorAtOrAfter(toks, j, e)
    ensures ErrorAtOrAfter(toks, i, e)
  {
    if e.UnexpectedToken? {
      var k :| j <= k < |toks| && e == HandleUnexpectedToken(toks[k]);
    }
  }

  /** A syntax error raised at the token `peek` returns from any cursor at or after `i`. */
  lemma ErrorAtPeek(toks: seq<Token>, i: nat, k: nat)
    requires |toks| >= 1 && i < |toks| && i <= k
    ensures ErrorAtOrAfter(toks, i, HandleUnexpectedToken(PeekAt(toks, k)))
  {
    if k < |toks| {
      assert HandleUnexpectedToken(PeekAt(toks, k)) == HandleUnexpectedToken(toks[k]);
    } else {
      assert HandleUnexpectedToken(PeekAt(toks, k)) == HandleUnexpectedToken(toks[|toks| - 1]);
    }
  }

  lemma {:induction false} PrimarySound(toks: seq<Token>, i: nat)
    requires TokenStream(toks) && i < |toks|
    ensures var s := Primary(toks, i);
      && (s.result.Ok? && AllParsable(toks) ==> IsExpr(s.result.value))
      && (s.result.Err? ==> ErrorAtOrAfter(toks, i, s.result.error))
      && (AllParsable(toks) ==> !(s.result.Err? && s.result.error.InvalidNumber?))
    decreases |toks| - i, 0
  {
    var t := PeekAt(toks, i);
    match t.kind
    case Identifier =>
      ErrorAtPeek(toks, i, i + 1);
    case NumericLiteral =>
      ErrorAtPeek(toks, i, i + 1);
      if AllParsable(toks) {
        assert Parsable(toks[i]);
      }
    case LParen =>
      AdditiveSound(toks, i + 1);
      GroupSound(toks, i);
    case _ =>
      ErrorAtPeek(toks, i, i);
  }

  /** `PrimarySound` for a parenthesised expression, given it for the inner expression. */
  lemma GroupSound(toks: seq<Token>, i: nat)
    requires TokenStream(toks) && i < |toks| && PeekAt(toks, i).kind == LParen
    requires var s := Additive(toks, i + 1);
      && (s.result.Ok? && AllParsable(toks) ==> IsExpr(s.result.value))
      && (s.result.Err? ==> ErrorAtOrAfter(toks, i + 1, s.result.error))
      && (AllParsable(toks) ==> !(s.result.Err? && s.result.error.InvalidNumber?))
    ensures var s := Primary(toks, i);
      && (s.result.Ok? && AllParsable(toks) ==> IsExpr(s.result.value))
      && (s.result.Err? ==> ErrorAtOrAfter(toks, i, s.result.error))
      && (AllParsable(toks) ==> !(s.result.Err? && s.result.error.InvalidNumber?))
  {
    var inner := Additive(toks, i + 1);
    if inner.result.Err? {
      ErrorLater(toks, i, i + 1, inner.result.error);
    } else {
      ErrorAtPeek(toks, i, inner.next);
      ErrorAtPeek(toks, i, inner.next + 1);
    }
  }

  lemma {:induction false} MultiplicativeSound(toks: seq<Token>, i: nat)
    requires TokenStream(toks) && i < |toks|
    ensures var s := Multiplicative(toks, i);
      && (s.result.Ok? && AllParsable(toks) ==> IsExpr(s.result.value))
      && (s.result.Err? ==> ErrorAtOrAfter(toks, i, s.result.error))
      && (AllParsable(toks) ==> !(s.result.Err? && s.result.error.InvalidNumber?))
    decreases |toks| - i, 1
  {
    PrimarySound(toks, i);
    var first := Primary(toks, i);
    if first.result.Ok? {
      MultiplicativeLoopSound(toks, first.result.value, first.next);
      var s := MultiplicativeLoop(toks, first.result.value, first.next);
      if s.result.Err? {
        ErrorLater(toks, i, first.next, s.result.error);
      }
    }
  }

  lemma {:induction false} MultiplicativeLoopSound(toks: seq<Token>, left: Node, j: nat)
    requires TokenStream(toks) && j < |toks| && IsValidExpressionFollower(PeekAt(toks, j))
    ensures var s := MultiplicativeLoop(toks, left, j);
      && (s.result.Ok? && AllParsable(toks) && IsExpr(left) ==> IsExpr(s.result.value))
      && (s.result.Err? ==> ErrorAtOrAfter(toks, j, s.result.error))
      && (AllParsable(toks) ==> !(s.result.Err? && s.result.error.InvalidNumber?))
    decreases |toks| - j, 3
  {
    var t := PeekAt(toks, j);
    if t.kind == Star || t.kind == Slash {
      PrimarySound(toks, j + 1);
      var right := Primary(toks, j + 1);
      if right.result.Err? {
        ErrorLater(toks, j, j + 1, right.result.error);
      } else {
        var next := Binary(left, t.lexeme[0], right.result.value);
        MultiplicativeLoopSound(toks, next, right.next);
        var s := MultiplicativeLoop(toks, next, right.next);
        if s.result.Err? {
          ErrorLater(toks, j, right.next, s.result.error);
        }
        if AllParsable(toks) {
          assert Parsable(toks[j]);
        }
      }
    }
  }

  lemma {:induction false} AdditiveSound(toks: seq<Token>, i: nat)
    requires TokenStream(toks) && i < |toks|
    ensures var s := Additive(toks, i);
      && (s.result.Ok? && AllParsable(toks) ==> IsExpr(s.result.value))
      && (s.result.Err? ==> ErrorAtOrAfter(toks, i, s.result.error))
      && (AllParsable(toks) ==> !(s.result.Err? && s.result.error.InvalidNumber?))
    decreases |toks| - i, 2
  {
    MultiplicativeSound(toks, i);
    var first := Multiplicative(toks, i);
    if first.result.Ok? {
      AdditiveLoopSound(toks, first.result.value, first.next);
      var s := AdditiveLoop(toks, first.result.value, first.next);
      if s.result.Err? {
        ErrorLater(toks, i, first.next, s.result.error);
      }
    }
  }

  lemma {:induction false} AdditiveLoopSound(toks: seq<Token>, left: Node, j: nat)
    requires TokenStream(toks) && j < |toks| && PeekAt(toks, j).kind in {Plus, Minus, RParen, EOF}
    ensures var s := AdditiveLoop(toks, left, j);
      && (s.result.Ok? && AllParsable(toks) && IsExpr(left) ==> IsExpr(s.result.value))
      && (s.result.Err? ==> ErrorAtOrAfter(toks, j, s.result.error))
      && (AllParsable(toks) ==> !(s.result.Err? && s.result.error.InvalidNumber?))
    decreases |toks| - j, 3
  {
    var t := PeekAt(toks, j);
    if t.kind == Plus || t.kind == Minus {
      MultiplicativeSound(toks, j + 1);
      var right := Multiplicative(toks, j + 1);
      if right.result.Err? {
        ErrorLater(toks, j, j + 1, right.result.error);
      } else {
        var next := Binary(left, t.lexeme[0], right.result.value);
        AdditiveLoopSound(toks, next, right.next);
        var s := AdditiveLoop(toks, next, right.next);
        if s.result.Err? {
          ErrorLater(toks, j, right.next, s.result.error);
        }
        if AllParsable(toks) {
          assert Parsable(toks[j]);
        }
      }
    }
  }

  /** `parseStatement`: an additive expression wrapped as an expression statement. */
  function Statement(toks: seq<Token>, i: nat): (s: Step)
    requires TokenStream(toks) && i < |toks|
    ensures s.result.Ok? ==> i < s.next < |toks| && PeekAt(toks, s.next).kind in {RParen, EOF}
    ensures s.result.Ok? && AllParsable(toks) ==> IsStatement(s.result.value)
    ensures s.result.Err? ==> ErrorAtOrAfter(toks, i, s.result.error)
    ensures AllParsable(toks) ==> !(s.result.Err? && s.result.error.InvalidNumber?)
  {
    AdditiveSound(toks, i);
    var e := Additive(toks, i);
    if e.result.Err? then e else Step(Ok(ExprStmt(e.result.value)), e.next)
  }

  /** The loop of `Parse` from cursor `i`: statements until EOF or the first error. */
  function Statements(toks: seq<Token>, i: nat): (o: Outcome)
    requires TokenStream(toks)
    ensures o.error.None? ==> PeekAt(toks, o.next).kind == EOF
    ensures AllParsable(toks) ==> forall k :: 0 <= k < |o.statements| ==> IsStatement(o.statements[k])
    ensures o.error.Some? ==> ErrorAtOrAfter(toks, i, o.error.value)
    ensures AllParsable(toks) && o.error.Some? ==> o.error.value.UnexpectedToken?
    decreases |toks| - i
  {
    if PeekAt(toks, i).kind == EOF then Outcome([], None, i)
    else
      var st := Statement(toks, i);
      if st.result.Err? then Outcome([], Some(st.result.error), st.next)
      else
        var rest := Statements(toks, st.next);
        Outcome([st.result.value] + rest.statements, rest.error, rest.next)
  }

  /** `NewParser(source).Parse()` on a token list: the program and the error, if any. */
  function ParseTokens(toks: seq<Token>): (r: (Node, Option<ParseError>))
    requires TokenStream(toks)
    ensures r.0.Program?
    ensures AllParsable(toks) ==> IsProgram(r.0)
    ensures AllParsable(toks) && r.1.Some? ==> r.1.value.UnexpectedToken?
  {
    var o := Statements(toks, 0);
    (Program(o.statements), o.error)
  }

  /** The lexer's output is a token list the parser accepts, in the shape the lexer guarantees. */
  lemma TokenizeIsTokenStream(source: string)
    requires IsAscii(source)
    ensures TokenStream(Tokenize(source, 0)) && AllParsable(Tokenize(source, 0))
  {
    var toks := Tokenize(source, 0);
    forall k | 0 <= k < |toks|
      ensures Parsable(toks[k])
    {
      assert WellFormedToken(toks[k]);
    }
  }

  /** Lexing then parsing a source text. */
  function ParseText(source: string): (r: (Node, Option<ParseError>))
    requires IsAscii(source)
    ensures IsProgram(r.0)
    ensures r.1.Some? ==> r.1.value.UnexpectedToken?
  {
    TokenizeIsTokenStream(source);
    var toks := Tokenize(source, 0);
    ParseTokens(toks)
  }

  /** `Primary` at a `(`: the inner expression, then the `)`, then a valid follower. */
  lemma PrimaryOfGroup(toks: seq<Token>, i: nat)
    requires TokenStream(toks) && i < |toks| && PeekAt(toks, i).kind == LParen
    ensures i + 1 < |toks|
    ensures var inner := Additive(toks, i + 1);
      Primary(toks, i)
      == if inner.result.Err? then inner
         else if PeekAt(toks, inner.next).kind != RParen then Step(Err(HandleUnexpectedToken(PeekAt(toks, inner.next))), inner.next)
         else if !IsValidExpressionFollower(PeekAt(toks, inner.next + 1))
         then Step(Err(HandleUnexpectedToken(PeekAt(toks, inner.next + 1))), inner.next + 1)
         else Step(Ok(inner.result.value), inner.next + 1)
  {
  }

  class Parser {
    const tokens: seq<Token>
    const max: nat
    var index: nat

    ghost predicate Valid()
      reads this
    {
      max == |tokens| && TokenStream(tokens)
    }

    /** `NewParser`: lex the whole source, cursor at the first token. */
    constructor (source: string)
      requires IsAscii(source)
      ensures Valid() && tokens == Tokenize(source, 0) && index == 0
    {
      var lexer := new Lexer(source);
      var toks := lexer.GenerateTokens();
      TokenizeIsTokenStream(source);
      tokens := toks;
      max := |toks|;
      index := 0;
    }

    /** `peek`: never out of bounds, and the final EOF once the cursor is at or past it. */
    function Peek(): (t: Token)
      reads this
      requires Valid()
      ensures t in tokens
      ensures index >= max - 1 ==> t == tokens[max - 1]
      ensures t.kind != EOF ==> index < max - 1 && t == tokens[index]
    {
      PeekAt(tokens, index)
    }

    method Parse() returns (program: Node, err: Option<ParseError>)
      requires Valid()
      modifies this
      ensures Valid()
      ensures var o := Statements(tokens, old(index));
        program == Program(o.statements) && err == o.error && index == o.next
    {
      program := Program([]);
      while true
        invariant Valid() && program.Program?
        invariant var o := Statements(tokens, index); var o0 := Statements(tokens, old(index));
          program.statements + o.statements == o0.statements && o.error == o0.error && o.next == o0.next
        decreases max - index
      {
        var token := Peek();
        if token.kind == EOF {
          return program, None;
        }
        ghost var before := index;
        ghost var done := program.statements;
        var statement := ParseStatement();
        if statement.Err? {
          return program, Some(statement.error);
        }
        program := Program(program.statements + [statement.value]);
        assert Statements(tokens, before).statements == [statement.value] + Statements(tokens, index).statements;
        Associative(done, [statement.value], Statements(tokens, index).statements);
      }
    }

    method ParseStatement() returns (r: Result<Node, ParseError>)
      requires Valid() && index < max
      modifies this
      ensures Valid() && Step(r, index) == Statement(tokens, old(index))
    {
      var expr := ParseAdditiveExpression();
      if expr.Err? {
        return Err(expr.error);
      }
      r := Ok(ExprStmt(expr.value));
    }

    method ParseAdditiveExpression() returns (r: Result<Node, ParseError>)
      requires Valid() && index < max
      modifies this
      ensures Valid() && Step(r, index) == Additive(tokens, old(index))
      decreases max - index, 3
    {
      var left := ParseMultiplicativeExpression();
      if left.Err? {
        return left;
      }
      var acc := left.value;
      while true
        invariant Valid() && old(index) < index < max
        invariant PeekAt(tokens, index).kind in {Plus, Minus, RParen, EOF}
        invariant AdditiveLoop(tokens, acc, index) == Additive(tokens, old(index))
        decreases max - index
      {
        var token := Peek();
        if token.kind != Plus && token.kind != Minus {
          break;
        }
        var operator := token.lexeme[0];
        index := index + 1;
        var right := ParseMultiplicativeExpression();
        if right.Err? {
          return right;
        }
        acc := Binary(acc, operator, right.value);
      }
      r := Ok(acc);
    }

    method ParseMultiplicativeExpression() returns (r: Result<Node, ParseError>)
      requires Valid() && index < max
      modifies this
      ensures Valid() && Step(r, index) == Multiplicative(tokens, old(index))
      decreases max - index, 2
    {
      var left := ParsePrimaryExpression();
      if left.Err? {
        return left;
      }
      var acc := left.value;
      while true
        invariant Valid() && old(index) < index < max
        invariant IsValidExpressionFollower(PeekAt(tokens, index))
        invariant MultiplicativeLoop(tokens, acc, index) == Multiplicative(tokens, old(index))
        decreases max - index
      {
        var token := Peek();
        if token.kind != Star && token.kind != Slash {
          break;
        }
        var operator := token.lexeme[0];
        index := index + 1;
        var right := ParsePrimaryExpression();
        if right.Err? {
          return right;
        }
        acc := Binary(acc, operator, right.value);
      }
      r := Ok(acc);
    }

    method ParsePrimaryExpression() returns (r: Result<Node, ParseError>)
      requires Valid() && index < max
      modifies this
      ensures Valid() && Step(r, index) == Primary(tokens, old(index))
      decreases max - index, 1
    {
      ghost var start := index;
      var token := Peek();
      match token.kind
      case Identifier =>
        var expr := Ident(token.lexeme);
        index := index + 1;
        token := Peek();
        if !IsValidExpressionFollower(token) {
          return Err(HandleUnexpectedToken(token));
        }
        return Ok(expr);
      case NumericLiteral =>
        var value := ParseNumber(token.lexeme);
        if value.None? {
          return Err(InvalidNumber(token.lexeme));
        }
        index := index + 1;
        token := Peek();
        if !IsValidExpressionFollower(token) {
          return Err(HandleUnexpectedToken(token));
        }
        return Ok(Num(value.value));
      case LParen =>
        r := ParseGroup();
      case _ =>
        index := index + 1;
        return Err(HandleUnexpectedToken(token));
    }

    /** The `(` case of `parsePrimaryExpression`: the inner expression, the `)`, then a valid follower. */
    method ParseGroup() returns (r: Result<Node, ParseError>)
      requires Valid() && index < max && PeekAt(tokens, index).kind == LParen
      modifies this
      ensures Valid() && Step(r, index) == Primary(tokens, old(index))
      decreases max - index, 0
    {
      PrimaryOfGroup(tokens, index);
      index := index + 1;
      var expr := ParseAdditiveExpression();
      if expr.Err? {
        return expr;
      }
      var token := Peek();
      if !IsExpected(token, {RParen}) {
        return Err(HandleUnexpectedToken(token));
      }
      index := index + 1;
      token := Peek();
      if !IsValidExpressionFollower(token) {
        return Err(HandleUnexpectedToken(token));
      }
      return expr;
    }
  }

  /** The entry point: `NewParser(source).Parse()`. */
  method ParseSource(source: string) returns (program: Node, err: Option<ParseError>)
    requires IsAscii(source)
    ensures (program, err) == ParseText(source)
  {
    var parser := new Parser(source);
    program, err := parser.Parse();
  }
}
