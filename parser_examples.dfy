/**
 * Rows of the parser's error table, on the token lists the lexer gives for
 * their sources: the program kept, the error, and the message text.
 */
module ParsingExamples {
  import opened Results
  import opened Numerals
  import opened Ast
  import opened Lexing
  import opened Parsing
  import opened ParsingProperties

  /** The tokens of `1 +`. */
  const TrailingPlus: seq<Token> :=
    [Token(NumericLiteral, "1", 0), Token(Plus, "+", 2), Token(EOF, "", 3)]

  /** `1 +`: the missing right operand is reported at the EOF token. */
  lemma TrailingPlusRejected()
    ensures ParseTokens(TrailingPlus) == (Program([]), Some(UnexpectedToken("", 3)))
  {
    var toks := TrailingPlus;
    assert PrintAdditive(Num(1)) == [Token(NumericLiteral, "1", 0)];
    MissingOperand(Num(1), toks);
  }

  /** Its message. */
  lemma TrailingPlusMessage()
    ensures Message(UnexpectedToken("", 3)) == "Unexpected token '' at position 3."
  {
    var d := Decimal(3);
    assert d == "3";
    assert Message(UnexpectedToken("", 3)) == "Unexpected token '" + "" + "' at position " + d + ".";
  }

  /** The tokens of `1 2`. */
  const TwoNumbers: seq<Token> :=
    [Token(NumericLiteral, "1", 0), Token(NumericLiteral, "2", 2), Token(EOF, "", 3)]

  /** `1 2`: the second operand is reported, and no statement is kept. */
  lemma TwoNumbersRejected()
    ensures ParseTokens(TwoNumbers) == (Program([]), Some(UnexpectedToken("2", 2)))
  {
    assert PrintAdditive(Num(1)) == [Token(NumericLiteral, "1", 0)];
    JuxtapositionRejected(Num(1), TwoNumbers);
  }

  /** Its message. */
  lemma TwoNumbersMessage()
    ensures Message(UnexpectedToken("2", 2)) == "Unexpected token '2' at position 2."
  {
    var d := Decimal(2);
    assert d == "2";
    assert Message(UnexpectedToken("2", 2)) == "Unexpected token '" + "2" + "' at position " + d + ".";
  }

  /** The tokens of `1 + 2)`. */
  const StrayParen: seq<Token> :=
    [Token(NumericLiteral, "1", 0), Token(Plus, "+", 2), Token(NumericLiteral, "2", 4),
     Token(RParen, ")", 5), Token(EOF, "", 6)]


  /** `1 + 2)`: the sum is kept as a statement and the `)` is the error. */
  lemma StrayParenRejected()
    ensures ParseTokens(StrayParen) == (Program([ExprStmt(Binary(Num(1), '+', Num(2)))]), Some(UnexpectedToken(")", 5)))
  {
    var e := Binary(Num(1), '+', Num(2));
    assert PrintAdditive(e) == [Token(NumericLiteral, "1", 0), Token(Plus, "+", 0), Token(NumericLiteral, "2", 0)];
    UnmatchedClosingParen(e, StrayParen);
  }

  /** Its message. */
  lemma StrayParenMessage()
    ensures Message(UnexpectedToken(")", 5)) == "Unexpected token ')' at position 5."
  {
    var d := Decimal(5);
    assert d == "5";
    assert Message(UnexpectedToken(")", 5)) == "Unexpected token '" + ")" + "' at position " + d + ".";
  }

  /** The tokens of `(1 + 2`. */
  const OpenGroup: seq<Token> :=
    [Token(LParen, "(", 0), Token(NumericLiteral, "1", 1), Token(Plus, "+", 3),
     Token(NumericLiteral, "2", 5), Token(EOF, "", 6)]

  /** `(1 + 2`: the missing `)` is reported at the EOF token. */
  lemma OpenGroupRejected()
    ensures ParseTokens(OpenGroup) == (Program([]), Some(UnexpectedToken("", 6)))
  {
    var e := Binary(Num(1), '+', Num(2));
    assert PrintAdditive(e) == [Token(NumericLiteral, "1", 0), Token(Plus, "+", 0), Token(NumericLiteral, "2", 0)];
    UnclosedParen(e, OpenGroup);
  }

  /** Its message. */
  lemma OpenGroupMessage()
    ensures Message(UnexpectedToken("", 6)) == "Unexpected token '' at position 6."
  {
    var d := Decimal(6);
    assert d == "6";
    assert Message(UnexpectedToken("", 6)) == "Unexpected token '" + "" + "' at position " + d + ".";
  }

  /** The tokens of `1 + (2 + (3 + 4)`. */
  const NestedOpenGroups: seq<Token> :=
    [Token(NumericLiteral, "1", 0), Token(Plus, "+", 2), Token(LParen, "(", 4),
     Token(NumericLiteral, "2", 5), Token(Plus, "+", 7), Token(LParen, "(", 9),
     Token(NumericLiteral, "3", 10), Token(Plus, "+", 12), Token(NumericLiteral, "4", 14),
     Token(RParen, ")", 15), Token(EOF, "", 16)]

  /**
   * `1 + (2 + (3 + 4)`: the inner group closes, the outer one reaches EOF,
   * and the error is at the EOF token.
   */
  lemma NestedOpenGroupsRejected()
    ensures ParseTokens(NestedOpenGroups) == (Program([]), Some(UnexpectedToken("", 16)))
  {
    NestedIsTokenStream();
    LeadingOperandPrinted();
    OuterGroupUnclosed();
    FailsAfterOne(NestedOpenGroups, Step(Err(UnexpectedToken("", 16)), 10));
  }

  /** `1 +` and an operand that fails: the operand's error is the program's. */
  lemma FailsAfterOne(toks: seq<Token>, failure: Step)
    requires TokenStream(toks) && 2 < |toks| && failure.result.Err?
    requires Matches(toks, 0, PrintAdditive(Num(1))) && |PrintAdditive(Num(1))| == 1 && toks[1].kind == Plus
    requires Primary(toks, 2) == failure
    ensures ParseTokens(toks) == (Program([]), Some(failure.result.error))
  {
    OperandFails(Num(1), toks);
  }

  /** `1 + (2 + (3 + 4)` starts with the operand `1` and an additive operator. */
  lemma LeadingOperandPrinted()
    ensures Matches(NestedOpenGroups, 0, PrintAdditive(Num(1))) && |PrintAdditive(Num(1))| == 1
    ensures NestedOpenGroups[1].kind == Plus
  {
    assert PrintAdditive(Num(1)) == [Token(NumericLiteral, "1", 0)];
    assert SameToken(NestedOpenGroups[0 + 0], PrintAdditive(Num(1))[0]);
  }

  /** The outer `(` of `1 + (2 + (3 + 4)` meets EOF where its `)` should be. */
  lemma OuterGroupUnclosed()
    ensures Primary(NestedOpenGroups, 2) == Step(Err(UnexpectedToken("", 16)), 10)
  {
    NestedOuterBody();
    NestedIsTokenStream();
    GroupReachesEnd(NestedOpenGroups, 2, OuterBody, 10);
  }

  /** `1 + (2 + (3 + 4)` ends with EOF, and its operators are non-empty. */
  lemma NestedIsTokenStream()
    ensures TokenStream(NestedOpenGroups)
  {
  }

  /** The expression `2 + (3 + 4)`, inside the outer `(`. */
  const OuterBody: Node := Binary(Num(2), '+', Binary(Num(3), '+', Num(4)))

  /** Tokens 3 to 9 of `1 + (2 + (3 + 4)` print the outer group's body. */
  lemma OuterBodyPrinted()
    ensures Matches(NestedOpenGroups, 3, PrintAdditive(OuterBody)) && |PrintAdditive(OuterBody)| == 7
  {
    var toks := NestedOpenGroups;
    var three := [Token(NumericLiteral, "3", 0), Token(Plus, "+", 0), Token(NumericLiteral, "4", 0)];
    assert PrintAdditive(Binary(Num(3), '+', Num(4))) == three;
    var p := [Token(NumericLiteral, "2", 0), Token(Plus, "+", 0), Token(LParen, "(", 0)] + three + [Token(RParen, ")", 0)];
    assert PrintAdditive(OuterBody) == p;
    forall k | 0 <= k < 7
      ensures SameToken(toks[3 + k], p[k])
    {
      if k < 3 {
        assert p[k] == [Token(NumericLiteral, "2", 0), Token(Plus, "+", 0), Token(LParen, "(", 0)][k];
      } else if k < 6 {
        assert p[k] == three[k - 3];
      } else {
        assert p[k] == Token(RParen, ")", 0);
      }
    }
  }

  /** Inside the outer `(`, `2 + (3 + 4)` is read completely, up to the EOF token. */
  lemma NestedOuterBody()
    ensures Additive(NestedOpenGroups, 3) == Step(Ok(OuterBody), 10)
  {
    var toks := NestedOpenGroups;
    OuterBodyPrinted();
    AdditiveOfPrint(OuterBody, toks, 3, 10);
    assert PeekAt(toks, 10) == toks[10];
    assert AdditiveLoop(toks, OuterBody, 10) == Step(Ok(OuterBody), 10);
  }

  /** Its message, with a two-digit position. */
  lemma NestedOpenGroupsMessage()
    ensures Message(UnexpectedToken("", 16)) == "Unexpected token '' at position 16."
  {
    var d := Decimal(16);
    assert d == "16";
    assert Message(UnexpectedToken("", 16)) == "Unexpected token '" + "" + "' at position " + d + ".";
  }
}
