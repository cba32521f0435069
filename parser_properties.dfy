/**
 * What the parser promises about whole inputs.
 *
 * The reference for precedence and associativity is a printer that writes an
 * expression tree as tokens with parentheses only where the grammar needs
 * them: a `+`/`-` node whose right operand is itself additive, or a `*`/`/`
 * node with an additive operand or a multiplicative right operand. Parsing
 * that output gives the tree back, so `*` and `/` bind tighter than `+` and
 * `-`, both tiers fold to the left, and a parenthesised group is its inner
 * tree with no wrapper node. The lemmas over token lists compare tokens by
 * kind and lexeme only, so they hold whatever the positions are.
 */
module ParsingProperties {
  import opened Results
  import opened Numerals
  import opened Ast
  import opened Lexing
  import opened Parsing
  import LexingProperties

  predicate IsAdditiveOp(c: char) {
    c == '+' || c == '-'
  }

  predicate IsMultiplicativeOp(c: char) {
    c == '*' || c == '/'
  }

  function OperatorToken(op: char): (t: Token)
    requires IsOperator(op)
    ensures IsOperatorKind(t.kind) && t.lexeme == [op]
    ensures IsAdditiveOp(op) <==> t.kind in {Plus, Minus}
    ensures IsMultiplicativeOp(op) <==> t.kind in {Star, Slash}
  {
    Token(if op == '+' then Plus else if op == '-' then Minus else if op == '*' then Star else Slash, [op], 0)
  }

  /** No EOF inside, and every operator token has a first byte. */
  predicate Printable(ts: seq<Token>) {
    forall k :: 0 <= k < |ts| ==> ts[k].kind != EOF && (IsOperatorKind(ts[k].kind) ==> |ts[k].lexeme| >= 1)
  }

  /**
   * Orders the three printers on one node so that each calls another on
   * the same node only downwards: tier 0 is additive, 1 multiplicative,
   * 2 primary.
   */
  function Rank(e: Node, tier: nat): nat
    requires tier < 3
  {
    if e.Binary? && IsAdditiveOp(e.operator) then [0, 2, 1][tier]
    else if e.Binary? && IsMultiplicativeOp(e.operator) then [1, 0, 2][tier]
    else [2, 1, 0][tier]
  }

  function PrintAdditive(e: Node): (ts: seq<Token>)
    requires IsExpr(e)
    ensures |ts| >= 1 && Printable(ts)
    decreases e, Rank(e, 0)
  {
    if e.Binary? && IsAdditiveOp(e.operator) then
      PrintAdditive(e.left) + [OperatorToken(e.operator)] + PrintMultiplicative(e.right)
    else PrintMultiplicative(e)
  }

  function PrintMultiplicative(e: Node): (ts: seq<Token>)
    requires IsExpr(e)
    ensures |ts| >= 1 && Printable(ts)
    decreases e, Rank(e, 1)
  {
    if e.Binary? && IsMultiplicativeOp(e.operator) then
      PrintMultiplicative(e.left) + [OperatorToken(e.operator)] + PrintPrimary(e.right)
    else PrintPrimary(e)
  }

  function PrintPrimary(e: Node): (ts: seq<Token>)
    requires IsExpr(e)
    ensures |ts| >= 1 && Printable(ts)
    decreases e, Rank(e, 2)
  {
    match e
    case Num(v) => [Token(NumericLiteral, Decimal(v), 0)]
    case Ident(x) => [Token(Identifier, x, 0)]
    case Binary(_, _, _) => [Token(LParen, "(", 0)] + PrintAdditive(e) + [Token(RParen, ")", 0)]
  }

  predicate SameToken(t: Token, u: Token) {
    t.kind == u.kind && t.lexeme == u.lexeme
  }

  /** `toks` holds `ts` (up to positions) from index `i`, with at least one token after it. */
  predicate Matches(toks: seq<Token>, i: nat, ts: seq<Token>) {
    i + |ts| < |toks| && forall k :: 0 <= k < |ts| ==> SameToken(toks[i + k], ts[k])
  }

  lemma MatchesSplit(toks: seq<Token>, i: nat, a: seq<Token>, x: Token, b: seq<Token>)
    requires Matches(toks, i, a + [x] + b)
    ensures Matches(toks, i, a) && SameToken(toks[i + |a|], x) && Matches(toks, i + |a| + 1, b)
  {
    var all := a + [x] + b;
    forall k | 0 <= k < |a| ensures SameToken(toks[i + k], a[k]) {
      assert all[k] == a[k];
    }
    assert all[|a|] == x;
    forall k | 0 <= k < |b| ensures SameToken(toks[i + |a| + 1 + k], b[k]) {
      assert all[|a| + 1 + k] == b[k];
    }
  }

  /** The follower error at `toks[end]`. */
  function Failure(toks: seq<Token>, end: nat): Step
    requires end < |toks|
  {
    Step(Err(HandleUnexpectedToken(toks[end])), end)
  }

  /** A complete primary ending before `end`: `ok` when `toks[end]` may follow it, else the follower error. */
  function FollowedBy(toks: seq<Token>, end: nat, ok: Step): Step
    requires end < |toks|
  {
    if IsValidExpressionFollower(toks[end]) then ok else Failure(toks, end)
  }

  /** A complete operand `left` ending before `end`, inside a multiplicative expression: the loop goes on from `end`. */
  function MultiplicativeRest(toks: seq<Token>, left: Node, end: nat): Step
    requires TokenStream(toks) && end < |toks|
  {
    assert PeekAt(toks, end) == toks[end];
    FollowedBy(toks, end, if IsValidExpressionFollower(toks[end]) then MultiplicativeLoop(toks, left, end) else Failure(toks, end))
  }

  /** A complete operand `left` ending before `end`, inside an additive expression: the loop goes on from `end`. */
  function AdditiveRest(toks: seq<Token>, left: Node, end: nat): Step
    requires TokenStream(toks) && end < |toks| && toks[end].kind != Star && toks[end].kind != Slash
  {
    assert PeekAt(toks, end) == toks[end];
    FollowedBy(toks, end, if IsValidExpressionFollower(toks[end]) then AdditiveLoop(toks, left, end) else Failure(toks, end))
  }

  lemma PrimaryLeaf(toks: seq<Token>, i: nat, e: Node)
    requires TokenStream(toks) && i + 1 < |toks|
    requires || (e.Num? && toks[i].kind == NumericLiteral && toks[i].lexeme == Decimal(e.value))
             || (e.Ident? && toks[i].kind == Identifier && toks[i].lexeme == e.symbol)
    ensures Primary(toks, i) == FollowedBy(toks, i + 1, Step(Ok(e), i + 1))
  {
    assert PeekAt(toks, i) == toks[i];
    assert PeekAt(toks, i + 1) == toks[i + 1];
    if e.Num? {
      ParseNumberOfDecimal(e.value);
    }
  }

  lemma PrimaryGroup(toks: seq<Token>, i: nat, e: Node, k: nat)
    requires TokenStream(toks) && i < k && k + 1 < |toks|
    requires toks[i].kind == LParen && toks[k].kind == RParen
    requires Additive(toks, i + 1) == AdditiveRest(toks, e, k)
    ensures Primary(toks, i) == FollowedBy(toks, k + 1, Step(Ok(e), k + 1))
  {
    assert PeekAt(toks, i) == toks[i];
    assert PeekAt(toks, k) == toks[k];
    assert AdditiveLoop(toks, e, k) == Step(Ok(e), k);
    assert Additive(toks, i + 1) == Step(Ok(e), k);
    assert PeekAt(toks, k + 1) == toks[k + 1];
  }

  /** The printed `(`, inner expression and `)` of a group, in place. */
  lemma GroupSplit(e: Node, toks: seq<Token>, i: nat, k: nat, end: nat)
    requires IsExpr(e) && e.Binary? && Matches(toks, i, PrintPrimary(e))
    requires k == i + 1 + |PrintAdditive(e)| && end == i + |PrintPrimary(e)|
    ensures toks[i].kind == LParen && Matches(toks, i + 1, PrintAdditive(e))
    ensures toks[k].kind == RParen && end == k + 1
  {
    var inner := PrintAdditive(e);
    var all := PrintPrimary(e);
    assert all == [Token(LParen, "(", 0)] + inner + [Token(RParen, ")", 0)];
    assert SameToken(toks[i + 0], all[0]);
    forall j | 0 <= j < |inner| ensures SameToken(toks[i + 1 + j], inner[j]) {
      assert SameToken(toks[i + (1 + j)], all[1 + j]);
    }
    assert SameToken(toks[i + (1 + |inner|)], all[1 + |inner|]);
  }

  /** The printed token of a literal or a name, in place. */
  lemma LeafSplit(e: Node, toks: seq<Token>, i: nat, end: nat)
    requires IsExpr(e) && !e.Binary? && Matches(toks, i, PrintPrimary(e)) && end == i + |PrintPrimary(e)|
    ensures end == i + 1 && end < |toks|
    ensures || (e.Num? && toks[i].kind == NumericLiteral && toks[i].lexeme == Decimal(e.value))
            || (e.Ident? && toks[i].kind == Identifier && toks[i].lexeme == e.symbol)
  {
    assert SameToken(toks[i + 0], PrintPrimary(e)[0]);
  }

  /** A printed primary ending before `end`: the primary, or the follower error at `toks[end]`. */
  lemma {:induction false} PrimaryOfPrint(e: Node, toks: seq<Token>, i: nat, end: nat)
    requires IsExpr(e) && TokenStream(toks) && Matches(toks, i, PrintPrimary(e)) && end == i + |PrintPrimary(e)|
    ensures end < |toks| && Primary(toks, i) == FollowedBy(toks, end, Step(Ok(e), end))
    decreases e, Rank(e, 2)
  {
    if e.Binary? {
      var k := i + 1 + |PrintAdditive(e)|;
      GroupSplit(e, toks, i, k, end);
      AdditiveOfPrint(e, toks, i + 1, k);
      PrimaryGroup(toks, i, e, k);
    } else {
      LeafSplit(e, toks, i, end);
      PrimaryLeaf(toks, i, e);
    }
  }

  /** One turn of the `*`/`/` loop: the operator of `e` at `m`, then its right operand ending before `end`. */
  lemma MultiplicativeTurn(toks: seq<Token>, e: Node, m: nat, end: nat)
    requires TokenStream(toks) && e.Binary? && m + 1 < end < |toks|
    requires toks[m].kind in {Star, Slash} && toks[m].lexeme == [e.operator]
    requires Primary(toks, m + 1) == FollowedBy(toks, end, Step(Ok(e.right), end))
    ensures MultiplicativeRest(toks, e.left, m) == MultiplicativeRest(toks, e, end)
  {
    assert PeekAt(toks, m) == toks[m];
    assert PeekAt(toks, end) == toks[end];
    assert Binary(e.left, e.operator, e.right) == e;
  }

  /** A multiplicative expression with no `*` or `/` at its top is its primary, then the loop. */
  lemma MultiplicativeOfPrimary(toks: seq<Token>, i: nat, e: Node, end: nat)
    requires TokenStream(toks) && i < end < |toks|
    requires Primary(toks, i) == FollowedBy(toks, end, Step(Ok(e), end))
    ensures Multiplicative(toks, i) == MultiplicativeRest(toks, e, end)
  {
    assert PeekAt(toks, end) == toks[end];
  }

  /** One turn of the `+`/`-` loop: the operator of `e` at `m`, then its right operand ending before `end`. */
  lemma AdditiveTurn(toks: seq<Token>, e: Node, m: nat, end: nat)
    requires TokenStream(toks) && e.Binary? && m + 1 < end < |toks|
    requires toks[m].kind in {Plus, Minus} && toks[m].lexeme == [e.operator]
    requires toks[end].kind != Star && toks[end].kind != Slash
    requires Multiplicative(toks, m + 1) == MultiplicativeRest(toks, e.right, end)
    ensures AdditiveRest(toks, e.left, m) == AdditiveRest(toks, e, end)
  {
    assert PeekAt(toks, m) == toks[m];
    assert PeekAt(toks, end) == toks[end];
    if IsValidExpressionFollower(toks[end]) {
      assert MultiplicativeLoop(toks, e.right, end) == Step(Ok(e.right), end);
    }
    assert Binary(e.left, e.operator, e.right) == e;
  }

  /** An additive expression with no `+` or `-` at its top is its multiplicative expression, then the loop. */
  lemma AdditiveOfMultiplicative(toks: seq<Token>, i: nat, e: Node, end: nat)
    requires TokenStream(toks) && i < end < |toks| && toks[end].kind != Star && toks[end].kind != Slash
    requires Multiplicative(toks, i) == MultiplicativeRest(toks, e, end)
    ensures Additive(toks, i) == AdditiveRest(toks, e, end)
  {
    assert PeekAt(toks, end) == toks[end];
    if IsValidExpressionFollower(toks[end]) {
      assert MultiplicativeLoop(toks, e, end) == Step(Ok(e), end);
    }
  }

  /** The printed operands and operator of a `*`/`/` node, in place. */
  lemma MultiplicativeSplit(e: Node, toks: seq<Token>, i: nat, m: nat, end: nat)
    requires IsExpr(e) && e.Binary? && IsMultiplicativeOp(e.operator) && Matches(toks, i, PrintMultiplicative(e))
    requires m == i + |PrintMultiplicative(e.left)| && end == i + |PrintMultiplicative(e)|
    ensures Matches(toks, i, PrintMultiplicative(e.left))
    ensures toks[m].kind in {Star, Slash} && toks[m].lexeme == [e.operator]
    ensures Matches(toks, m + 1, PrintPrimary(e.right)) && end == m + 1 + |PrintPrimary(e.right)|
  {
    var a, op, b := PrintMultiplicative(e.left), OperatorToken(e.operator), PrintPrimary(e.right);
    assert PrintMultiplicative(e) == a + [op] + b;
    MatchesSplit(toks, i, a, op, b);
  }

  /** The printed operands and operator of a `+`/`-` node, in place. */
  lemma AdditiveSplit(e: Node, toks: seq<Token>, i: nat, m: nat, end: nat)
    requires IsExpr(e) && e.Binary? && IsAdditiveOp(e.operator) && Matches(toks, i, PrintAdditive(e))
    requires m == i + |PrintAdditive(e.left)| && end == i + |PrintAdditive(e)|
    ensures Matches(toks, i, PrintAdditive(e.left))
    ensures toks[m].kind in {Plus, Minus} && toks[m].lexeme == [e.operator]
    ensures Matches(toks, m + 1, PrintMultiplicative(e.right)) && end == m + 1 + |PrintMultiplicative(e.right)|
  {
    var a, op, b := PrintAdditive(e.left), OperatorToken(e.operator), PrintMultiplicative(e.right);
    assert PrintAdditive(e) == a + [op] + b;
    MatchesSplit(toks, i, a, op, b);
  }

  /** Without `*` or `/` at its top, the multiplicative print is the primary print. */
  lemma LeafOrGroup(e: Node)
    requires IsExpr(e) && !(e.Binary? && IsMultiplicativeOp(e.operator))
    ensures PrintMultiplicative(e) == PrintPrimary(e)
  {
  }

  /** Without `+` or `-` at its top, the additive print is the multiplicative print. */
  lemma NotAdditive(e: Node)
    requires IsExpr(e) && !(e.Binary? && IsAdditiveOp(e.operator))
    ensures PrintAdditive(e) == PrintMultiplicative(e)
  {
  }

  /** A printed multiplicative expression ending before `end`: the loop goes on from `end`. */
  lemma {:induction false} MultiplicativeOfPrint(e: Node, toks: seq<Token>, i: nat, end: nat)
    requires IsExpr(e) && TokenStream(toks) && Matches(toks, i, PrintMultiplicative(e))
    requires end == i + |PrintMultiplicative(e)|
    ensures end < |toks| && Multiplicative(toks, i) == MultiplicativeRest(toks, e, end)
    decreases e, Rank(e, 1)
  {
    if e.Binary? && IsMultiplicativeOp(e.operator) {
      var m := i + |PrintMultiplicative(e.left)|;
      MultiplicativeSplit(e, toks, i, m, end);
      MultiplicativeOfPrint(e.left, toks, i, m);
      PrimaryOfPrint(e.right, toks, m + 1, end);
      MultiplicativeTurn(toks, e, m, end);
    } else {
      LeafOrGroup(e);
      PrimaryOfPrint(e, toks, i, end);
      MultiplicativeOfPrimary(toks, i, e, end);
    }
  }

  /** A printed additive expression ending before `end`, not followed by `*` or `/`: the loop goes on from `end`. */
  lemma {:induction false} AdditiveOfPrint(e: Node, toks: seq<Token>, i: nat, end: nat)
    requires IsExpr(e) && TokenStream(toks) && Matches(toks, i, PrintAdditive(e))
    requires end == i + |PrintAdditive(e)| && toks[end].kind != Star && toks[end].kind != Slash
    ensures Additive(toks, i) == AdditiveRest(toks, e, end)
    decreases e, Rank(e, 0)
  {
    if e.Binary? && IsAdditiveOp(e.operator) {
      var m := i + |PrintAdditive(e.left)|;
      AdditiveSplit(e, toks, i, m, end);
      AdditiveOfPrint(e.left, toks, i, m);
      MultiplicativeOfPrint(e.right, toks, m + 1, end);
      AdditiveTurn(toks, e, m, end);
    } else {
      NotAdditive(e);
      MultiplicativeOfPrint(e, toks, i, end);
      AdditiveOfMultiplicative(toks, i, e, end);
    }
  }

  /** An error at some tier is the error of every tier above it at the same cursor. */
  lemma ErrorPropagates(toks: seq<Token>, i: nat)
    requires TokenStream(toks) && i < |toks|
    ensures Primary(toks, i).result.Err? ==> Multiplicative(toks, i) == Primary(toks, i)
    ensures Multiplicative(toks, i).result.Err? ==> Additive(toks, i) == Multiplicative(toks, i)
    ensures Additive(toks, i).result.Err? ==> Statement(toks, i) == Additive(toks, i)
  {
  }

  /** The first statement succeeds at `end`: the rest of the program is read from there. */
  lemma FirstStatementOk(toks: seq<Token>, e: Node, end: nat)
    requires TokenStream(toks) && PeekAt(toks, 0).kind != EOF && Statement(toks, 0) == Step(Ok(ExprStmt(e)), end)
    ensures var rest := Statements(toks, end);
      Statements(toks, 0) == Outcome([ExprStmt(e)] + rest.statements, rest.error, rest.next)
  {
  }

  /** A printed expression from `i` ending before `end` and not followed by an operator, parsed as a statement. */
  lemma StatementOfPrint(e: Node, toks: seq<Token>, i: nat, end: nat)
    requires IsExpr(e) && TokenStream(toks) && Matches(toks, i, PrintAdditive(e)) && end == i + |PrintAdditive(e)|
    requires !IsOperatorKind(toks[end].kind)
    ensures PeekAt(toks, i).kind != EOF
    ensures Statement(toks, i) ==
      if toks[end].kind in {RParen, EOF} then Step(Ok(ExprStmt(e)), end)
      else Step(Err(HandleUnexpectedToken(toks[end])), end)
  {
    assert SameToken(toks[i + 0], PrintAdditive(e)[0]);
    AdditiveOfPrint(e, toks, i, end);
    assert PeekAt(toks, end) == toks[end];
    if toks[end].kind in {RParen, EOF} {
      assert AdditiveLoop(toks, e, end) == Step(Ok(e), end);
    }
  }

  /** Parsing a printed expression followed by EOF gives one statement holding exactly that expression. */
  lemma RoundTrip(e: Node, toks: seq<Token>)
    requires IsExpr(e) && TokenStream(toks)
    requires Matches(toks, 0, PrintAdditive(e)) && toks[|PrintAdditive(e)|].kind == EOF
    ensures ParseTokens(toks) == (Program([ExprStmt(e)]), None)
  {
    var end := |PrintAdditive(e)|;
    StatementOfPrint(e, toks, 0, end);
    FirstStatementOk(toks, e, end);
    assert PeekAt(toks, end) == toks[end];
    assert Statements(toks, end) == Outcome([], None, end);
    assert [ExprStmt(e)] + [] == [ExprStmt(e)];
  }

  /** The additive expression read from `i` is `e`, complete before `end`, where `*` and `/` cannot continue it. */
  predicate ReadsAs(toks: seq<Token>, i: nat, e: Node, end: nat) {
    && TokenStream(toks) && i < |toks| && end < |toks|
    && toks[end].kind != Star && toks[end].kind != Slash
    && Additive(toks, i) == AdditiveRest(toks, e, end)
  }

  /**
   * Parentheses add no node: if the tokens after a `(` read as `e` up to a
   * `)`, the group read from the `(` is `e` again, ending after the `)`.
   */
  lemma GroupAddsNoNode(toks: seq<Token>, i: nat, e: Node, k: nat, after: nat)
    requires ReadsAs(toks, i + 1, e, k) && i < k && after == k + 1 && after < |toks|
    requires toks[i].kind == LParen && toks[k].kind == RParen
    requires toks[after].kind != Star && toks[after].kind != Slash
    ensures ReadsAs(toks, i, e, after)
  {
    PrimaryGroup(toks, i, e, k);
    MultiplicativeOfPrimary(toks, i, e, after);
    AdditiveOfMultiplicative(toks, i, e, after);
  }

  /** `(` at every index from `start` to `i`, and as many `)` from `end` to `stop`, with a token after them. */
  predicate Parenthesized(toks: seq<Token>, start: nat, i: nat, end: nat, stop: nat) {
    && start <= i <= end <= stop < |toks| && stop - end == i - start
    && (forall j :: start <= j < i ==> toks[j].kind == LParen)
    && (forall j :: end <= j < stop ==> toks[j].kind == RParen)
  }

  /** `n` opening parentheses, then `ts`, then `n` closing parentheses. */
  predicate Wrapped(toks: seq<Token>, n: nat, ts: seq<Token>) {
    Matches(toks, n, ts) && Parenthesized(toks, 0, n, n + |ts|, n + |ts| + n)
  }

  /** Inside the `n` pairs of parentheses, `e` itself is read up to the innermost `)` (or the end). */
  lemma WrappedCore(e: Node, toks: seq<Token>, n: nat)
    requires IsExpr(e) && TokenStream(toks) && Wrapped(toks, n, PrintAdditive(e))
    requires var end := n + |PrintAdditive(e)| + n; toks[end].kind != Star && toks[end].kind != Slash
    ensures ReadsAs(toks, n, e, n + |PrintAdditive(e)|)
  {
    var k := n + |PrintAdditive(e)|;
    assert toks[k].kind != Star && toks[k].kind != Slash by {
      if 0 < n { assert toks[k].kind == RParen; }
    }
    AdditiveOfPrint(e, toks, n, k);
  }

  /**
   * Further pairs of parentheses around an expression read as `e` add no
   * node either: `(` from `start` to `i`, `)` from `end` to `stop`, and the
   * expression read from the outermost `(` is still `e`.
   */
  lemma {:induction false} NestedGroupsAddNoNode(toks: seq<Token>, e: Node, start: nat, i: nat, end: nat, stop: nat)
    requires ReadsAs(toks, i, e, end) && Parenthesized(toks, start, i, end, stop)
    requires toks[stop].kind != Star && toks[stop].kind != Slash
    ensures ReadsAs(toks, start, e, stop)
    decreases i - start
  {
    if start < i {
      NestedGroupsAddNoNode(toks, e, start + 1, i, end, stop - 1);
      GroupAddsNoNode(toks, start, e, stop - 1, stop);
    }
  }

  /** A token list that reads as `e` from its first token up to EOF is the program of that one statement. */
  lemma SingleStatement(toks: seq<Token>, e: Node, end: nat)
    requires ReadsAs(toks, 0, e, end) && toks[0].kind != EOF && toks[end].kind == EOF
    ensures ParseTokens(toks) == (Program([ExprStmt(e)]), None)
  {
    assert PeekAt(toks, end) == toks[end];
    assert AdditiveLoop(toks, e, end) == Step(Ok(e), end);
    assert PeekAt(toks, 0) == toks[0];
    assert Statement(toks, 0) == Step(Ok(ExprStmt(e)), end);
    FirstStatementOk(toks, e, end);
    assert Statements(toks, end) == Outcome([], None, end);
    assert [ExprStmt(e)] + [] == [ExprStmt(e)];
  }

  /**
   * Redundant parentheses are transparent: any printed expression inside
   * any number of extra parentheses, then EOF, parses to the one statement
   * holding exactly that tree, as `(1 + 2)` and `((1 + 2) * 3)` do.
   */
  lemma WrappedRoundTrip(e: Node, toks: seq<Token>, n: nat)
    requires IsExpr(e) && TokenStream(toks) && Wrapped(toks, n, PrintAdditive(e))
    requires toks[n + |PrintAdditive(e)| + n].kind == EOF
    ensures ParseTokens(toks) == (Program([ExprStmt(e)]), None)
  {
    var end := n + |PrintAdditive(e)| + n;
    WrappedCore(e, toks, n);
    NestedGroupsAddNoNode(toks, e, 0, n, n + |PrintAdditive(e)|, end);
    assert toks[0].kind != EOF by {
      if n == 0 { assert SameToken(toks[0 + 0], PrintAdditive(e)[0]); }
    }
    SingleStatement(toks, e, end);
  }

  /**
   * After a complete expression, a token that may not follow a primary
   * (a literal, an identifier, `(`, ...) is reported at once, and no
   * statement is kept.
   */
  lemma JuxtapositionRejected(e: Node, toks: seq<Token>)
    requires IsExpr(e) && TokenStream(toks) && Matches(toks, 0, PrintAdditive(e))
    requires !IsValidExpressionFollower(toks[|PrintAdditive(e)|])
    ensures ParseTokens(toks) == (Program([]), Some(HandleUnexpectedToken(toks[|PrintAdditive(e)|])))
  {
    StatementOfPrint(e, toks, 0, |PrintAdditive(e)|);
  }

  /** A token that cannot start a primary where one is expected is the error, at every tier. */
  lemma NoOperand(toks: seq<Token>, j: nat)
    requires TokenStream(toks) && j < |toks|
    requires toks[j].kind !in {NumericLiteral, Identifier, LParen}
    ensures Primary(toks, j) == Step(Err(HandleUnexpectedToken(toks[j])), j + 1)
    ensures Multiplicative(toks, j) == Primary(toks, j) && Additive(toks, j) == Primary(toks, j)
    ensures Statement(toks, j) == Primary(toks, j)
  {
    assert PeekAt(toks, j) == toks[j];
    ErrorPropagates(toks, j);
  }

  /**
   * A stray `)` after a complete expression: the expression is kept as the
   * program's statement and the `)` is the error.
   */
  lemma UnmatchedClosingParen(e: Node, toks: seq<Token>)
    requires IsExpr(e) && TokenStream(toks) && Matches(toks, 0, PrintAdditive(e))
    requires toks[|PrintAdditive(e)|].kind == RParen
    ensures ParseTokens(toks) == (Program([ExprStmt(e)]), Some(HandleUnexpectedToken(toks[|PrintAdditive(e)|])))
  {
    var end := |PrintAdditive(e)|;
    StatementOfPrint(e, toks, 0, end);
    FirstStatementOk(toks, e, end);
    NoOperand(toks, end);
    assert PeekAt(toks, end) == toks[end];
    assert Statements(toks, end) == Outcome([], Some(HandleUnexpectedToken(toks[end])), end + 1);
    assert [ExprStmt(e)] + [] == [ExprStmt(e)];
  }

  /** `(` and an expression with no `)` before EOF: the error is reported at the EOF token. */
  lemma UnclosedParen(e: Node, toks: seq<Token>)
    requires IsExpr(e) && TokenStream(toks) && toks[0].kind == LParen && Matches(toks, 1, PrintAdditive(e))
    requires toks[1 + |PrintAdditive(e)|].kind == EOF
    ensures ParseTokens(toks) == (Program([]), Some(HandleUnexpectedToken(toks[1 + |PrintAdditive(e)|])))
  {
    var end := 1 + |PrintAdditive(e)|;
    AdditiveOfPrint(e, toks, 1, end);
    assert PeekAt(toks, end) == toks[end];
    assert AdditiveLoop(toks, e, end) == Step(Ok(e), end);
    assert Additive(toks, 1) == Step(Ok(e), end);
    assert PeekAt(toks, 0) == toks[0];
    assert Primary(toks, 0) == Step(Err(HandleUnexpectedToken(toks[end])), end);
    ErrorPropagates(toks, 0);
  }

  /** An additive operator with no operand after it: the error is at the token that follows the operator. */
  lemma MissingOperand(e: Node, toks: seq<Token>)
    requires IsExpr(e) && TokenStream(toks) && Matches(toks, 0, PrintAdditive(e))
    requires var n := |PrintAdditive(e)|;
      && n + 1 < |toks|
      && toks[n].kind in {Plus, Minus}
      && toks[n + 1].kind !in {NumericLiteral, Identifier, LParen}
    ensures ParseTokens(toks) == (Program([]), Some(HandleUnexpectedToken(toks[|PrintAdditive(e)| + 1])))
  {
    var n := |PrintAdditive(e)|;
    assert SameToken(toks[0 + 0], PrintAdditive(e)[0]);
    AdditiveOfPrint(e, toks, 0, n);
    assert PeekAt(toks, n) == toks[n];
    NoOperand(toks, n + 1);
    assert AdditiveLoop(toks, e, n) == Step(Err(HandleUnexpectedToken(toks[n + 1])), n + 2);
    ErrorPropagates(toks, 0);
  }

  /** The additive loop at an operator whose right operand fails: the loop stops with that failure. */
  lemma AdditiveOperandFails(toks: seq<Token>, left: Node, j: nat)
    requires TokenStream(toks) && j + 1 < |toks| && toks[j].kind in {Plus, Minus}
    requires Primary(toks, j + 1).result.Err?
    ensures AdditiveLoop(toks, left, j) == Primary(toks, j + 1)
  {
    assert PeekAt(toks, j) == toks[j];
    ErrorPropagates(toks, j + 1);
  }

  /** An additive operator whose operand fails to parse: that error is the program's, and no statement is kept. */
  lemma OperandFails(e: Node, toks: seq<Token>)
    requires IsExpr(e) && TokenStream(toks) && Matches(toks, 0, PrintAdditive(e))
    requires var n := |PrintAdditive(e)|;
      && n + 1 < |toks|
      && toks[n].kind in {Plus, Minus}
      && Primary(toks, n + 1).result.Err?
    ensures ParseTokens(toks) == (Program([]), Some(Primary(toks, |PrintAdditive(e)| + 1).result.error))
  {
    var n := |PrintAdditive(e)|;
    assert SameToken(toks[0 + 0], PrintAdditive(e)[0]);
    AdditiveOfPrint(e, toks, 0, n);
    AdditiveOperandFails(toks, e, n);
    assert Additive(toks, 0) == Primary(toks, n + 1);
    ErrorPropagates(toks, 0);
  }

  /** A group whose body runs up to EOF: the missing `)` is reported at the EOF token. */
  lemma GroupReachesEnd(toks: seq<Token>, i: nat, e: Node, end: nat)
    requires TokenStream(toks) && i < end < |toks| && toks[i].kind == LParen && toks[end].kind == EOF
    requires Additive(toks, i + 1) == Step(Ok(e), end)
    ensures Primary(toks, i) == Step(Err(HandleUnexpectedToken(toks[end])), end)
  {
    assert PeekAt(toks, i) == toks[i];
    assert PeekAt(toks, end) == toks[end];
  }

  /** A program never holds more than one statement: a complete expression can only be followed by EOF or `)`. */
  lemma AtMostOneStatement(toks: seq<Token>)
    requires TokenStream(toks)
    ensures var (program, err) := ParseTokens(toks);
      && |program.statements| <= 1
      && (|program.statements| == 1 && err.Some? ==>
            exists k :: 0 <= k < |toks| && toks[k].kind == RParen && err.value == HandleUnexpectedToken(toks[k]))
  {
    if PeekAt(toks, 0).kind != EOF {
      var st := Statement(toks, 0);
      if st.result.Ok? {
        var j := st.next;
        FirstStatementOk(toks, st.result.value.expression, j);
        assert PeekAt(toks, j) == toks[j];
        if toks[j].kind == RParen {
          NoOperand(toks, j);
          assert Statements(toks, j) == Outcome([], Some(HandleUnexpectedToken(toks[j])), j + 1);
        } else {
          assert Statements(toks, j) == Outcome([], None, j);
        }
      }
    }
  }

  /** Empty or all-whitespace source: an empty program and no error. */
  lemma EmptySource(source: string)
    requires LexingProperties.AllWhitespace(source)
    ensures IsAscii(source) && ParseText(source) == (Program([]), None)
  {
    LexingProperties.WhitespaceOnly(source);
  }

  /** Every token of the lexer's output is the source text at its position (EOF is the empty text at the end). */
  lemma TokenQuotesSource(source: string, k: nat)
    requires IsAscii(source) && k < |Tokenize(source, 0)|
    ensures var t := Tokenize(source, 0)[k];
      t.position + |t.lexeme| <= |source| && source[t.position..t.position + |t.lexeme|] == t.lexeme
  {
    var toks := Tokenize(source, 0);
    LexingProperties.TokenizeCovers(source, 0);
    if k < |toks| - 1 {
      assert LexingProperties.Spanned(source, toks[k]);
    }
  }

  /** An error raised at a token of the lexer's output quotes the source text at its position. */
  lemma TokenErrorQuotesSource(source: string, k: nat, err: ParseError)
    requires IsAscii(source) && k < |Tokenize(source, 0)| && err == HandleUnexpectedToken(Tokenize(source, 0)[k])
    ensures err.position + |err.lexeme| <= |source| && source[err.position..err.position + |err.lexeme|] == err.lexeme
  {
    TokenQuotesSource(source, k);
  }

  /** On lexer-shaped token lists, the parse error, if any, is raised at one of the tokens. */
  lemma ErrorNamesToken(toks: seq<Token>)
    requires TokenStream(toks) && AllParsable(toks)
    ensures var err := ParseTokens(toks).1;
      err.Some? ==> err.value.UnexpectedToken? && exists k :: 0 <= k < |toks| && err.value == HandleUnexpectedToken(toks[k])
  {
    var o := Statements(toks, 0);
    if o.error.Some? {
      assert ErrorAtOrAfter(toks, 0, o.error.value);
    }
  }

  /**
   * On any ASCII source the error, if any, is a syntax error raised at one of
   * the lexer's tokens, so the message quotes exactly the source text at the
   * position it names (the empty text at the end of the input for EOF).
   */
  lemma ErrorQuotesSource(source: string)
    requires IsAscii(source)
    ensures var err := ParseText(source).1;
      err.Some? ==>
        && err.value.UnexpectedToken?
        && (exists k :: 0 <= k < |Tokenize(source, 0)| && err.value == HandleUnexpectedToken(Tokenize(source, 0)[k]))
        && err.value.position + |err.value.lexeme| <= |source|
        && source[err.value.position..err.value.position + |err.value.lexeme|] == err.value.lexeme
  {
    var toks := Tokenize(source, 0);
    TokenizeIsTokenStream(source);
    var err := ParseTokens(toks).1;
    assert ParseText(source).1 == err;
    if err.Some? {
      ErrorNamesToken(toks);
      var k :| 0 <= k < |toks| && err.value == HandleUnexpectedToken(toks[k]);
      TokenErrorQuotesSource(source, k, err.value);
    }
  }
}
