/**
 * The expression check of the parse-error classifier: an unmatched closing
 * parenthesis, a binary operator without a right operand, and empty
 * parentheses. The three tests look at different token kinds.
 */
module ExpressionErrors {
  import opened Wrappers
  import opened Tokens
  import opened ParserState

  /** A closing parenthesis with no entry valued 'LPAREN' above the bottom of
      the stack: range(len-1, 0, -1) never looks at index 0. */
  predicate UnmatchedParen(p: Token, stack: seq<Sym>) {
    p.kind == RPAREN && !AnyValue(stack, 1, |stack|, "LPAREN")
  }

  /** An operator followed by nothing or by a token that cannot start an operand. */
  predicate MissingRightOperand(p: Token, lookahead: Option<Token>) {
    && p.kind in OperatorKinds
    && (lookahead.None? || lookahead.value.kind in {EOL, RPAREN, RBRACKET, COMMA})
  }

  /** An opening parenthesis directly followed by a closing one. */
  predicate EmptyParens(p: Token, lookahead: Option<Token>) {
    p.kind == LPAREN && LookaheadIs(lookahead, RPAREN)
  }

  const UnmatchedReason := "Unmatched closing parenthesis ')'"

  function OperandReason(p: Token): string {
    "Missing right operand for operator '" + ValueText(p.value) + "'"
  }

  const EmptyReason := "Empty parentheses in expression"

  /** The messages the check appends, in the order it appends them. */
  function ExpressionMessages(p: Token, stack: seq<Sym>, lookahead: Option<Token>): seq<string> {
    When(UnmatchedParen(p, stack), p.line, UnmatchedReason)
    + When(MissingRightOperand(p, lookahead), p.line, OperandReason(p))
    + When(EmptyParens(p, lookahead), p.line, EmptyReason)
  }

  /** check_expression_errors, with the caller's list before and after. */
  method CheckExpressionErrors(p: Token, stack: seq<Sym>, lookahead: Option<Token>, errors: seq<string>)
    returns (handled: bool, errorsOut: seq<string>)
    ensures errorsOut == errors + ExpressionMessages(p, stack, lookahead)
    ensures handled <==> |errorsOut| > |errors|
  {
    handled := false;

    var a: seq<string> := [];
    if p.kind == RPAREN {
      var parenContext := ScanValue(stack, 1, |stack|, "LPAREN");
      if !parenContext {
        a := [SyntaxMessage(p.line, UnmatchedReason)];
        handled := true;
      }
    }

    var b: seq<string> := [];
    if MissingRightOperand(p, lookahead) {
      b := [SyntaxMessage(p.line, OperandReason(p))];
      handled := true;
    }

    var c: seq<string> := [];
    if EmptyParens(p, lookahead) {
      c := [SyntaxMessage(p.line, EmptyReason)];
      handled := true;
    }

    assert ExpressionMessages(p, stack, lookahead) == a + b + c;
    errorsOut := errors + (a + b + c);
    assert handled <==> |a + b + c| > 0;
  }

  /** Every message the check appends reports the offending token's line. */
  lemma ExpressionMessagesAtLine(p: Token, stack: seq<Sym>, lookahead: Option<Token>)
    ensures AllAtLine(ExpressionMessages(p, stack, lookahead), p.line)
  {
    var a := When(UnmatchedParen(p, stack), p.line, UnmatchedReason);
    var b := When(MissingRightOperand(p, lookahead), p.line, OperandReason(p));
    var c := When(EmptyParens(p, lookahead), p.line, EmptyReason);
    AllAtLineAppend(a, b, p.line);
    AllAtLineAppend(a + b, c, p.line);
  }

  /** The three tests need different token kinds: at most one message, and
      it is the one for the token's kind. */
  lemma ExpressionAtMostOne(p: Token, stack: seq<Sym>, lookahead: Option<Token>)
    ensures |ExpressionMessages(p, stack, lookahead)| <= 1
    ensures p.kind !in OperatorKinds && p.kind != RPAREN && p.kind != LPAREN ==>
              ExpressionMessages(p, stack, lookahead) == []
  {
    assert RPAREN !in OperatorKinds;
    assert LPAREN !in OperatorKinds;
  }

  /** The bottom entry of the stack never influences the check. */
  lemma {:induction false} ExpressionIgnoresBottom(p: Token, stack: seq<Sym>, s: Sym, lookahead: Option<Token>)
    requires |stack| > 0
    ensures ExpressionMessages(p, stack, lookahead) == ExpressionMessages(p, stack[0 := s], lookahead)
  {
    var other := stack[0 := s];
    assert AnyValue(stack, 1, |stack|, "LPAREN") <==> AnyValue(other, 1, |other|, "LPAREN") by {
      if AnyValue(stack, 1, |stack|, "LPAREN") {
        var i :| 1 <= i < |stack| && ValueIs(stack[i], "LPAREN");
        assert ValueIs(other[i], "LPAREN");
      }
      if AnyValue(other, 1, |other|, "LPAREN") {
        var i :| 1 <= i < |other| && ValueIs(other[i], "LPAREN");
        assert ValueIs(stack[i], "LPAREN");
      }
    }
  }

  /** An operator before the terminator is always reported, with its own text. */
  lemma OperatorBeforeTerminator(p: Token, stack: seq<Sym>, eol: Token)
    requires p.kind in OperatorKinds && eol.kind == EOL
    ensures ExpressionMessages(p, stack, Some(eol)) == [SyntaxMessage(p.line, OperandReason(p))]
  {
    assert RPAREN !in OperatorKinds;
    assert LPAREN !in OperatorKinds;
  }

  /** A closing parenthesis on a stack with no entry valued the string
      'LPAREN' above the bottom gets exactly the unmatched-parenthesis
      message, whatever the lookahead. A PLY stack holds lexemes, and the
      lexeme of `(` is "(", so only an identifier spelled LPAREN can stop
      this message. */
  lemma ClosingParenUnmatched(p: Token, stack: seq<Sym>, lookahead: Option<Token>)
    requires p.kind == RPAREN && !AnyValue(stack, 1, |stack|, "LPAREN")
    ensures ExpressionMessages(p, stack, lookahead) == [SyntaxMessage(p.line, UnmatchedReason)]
  {
  }
}
