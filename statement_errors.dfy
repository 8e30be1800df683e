/**
 * The statement check of the parse-error classifier: a missing terminating
 * period after an assignment, a function call or a return statement. Each
 * test may append one message; "handled" means at least one did.
 */
module StatementErrors {
  import opened Wrappers
  import opened Tokens
  import opened ParserState

  /** The window of the assignment test: indices len-3 .. len-1. */
  predicate EqualsInTopThree(stack: seq<Sym>)
    requires |stack| > 3
  {
    AnyValueToken(stack, |stack| - 3, |stack|, Terminal(EQUALS))
  }

  /** An operand of an assignment followed by something that cannot follow it. */
  predicate MissingAssignmentPeriod(p: Token, stack: seq<Sym>, lookahead: Option<Token>) {
    && |stack| > 3 && p.kind in OperandKinds
    && EqualsInTopThree(stack)
    && LookaheadOtherThan(lookahead, {EOL, RPAREN, RBRACKET})
  }

  /** The window of the call test: range(len-1, max(0, len-4), -1). */
  predicate LParenNearTop(stack: seq<Sym>) {
    AnyValueToken(stack, Max(0, |stack| - 4) + 1, |stack|, Terminal(LPAREN))
  }

  /** A closing parenthesis of a call followed by something other than the
      terminator or a closing bracket. */
  predicate MissingCallPeriod(p: Token, stack: seq<Sym>, lookahead: Option<Token>) {
    && p.kind == RPAREN && |stack| > 2
    && LParenNearTop(stack)
    && LookaheadOtherThan(lookahead, {EOL, RBRACKET})
  }

  /** The window of the return test: range(len-1, max(0, len-3), -1). */
  predicate ReturnNearTop(stack: seq<Sym>) {
    AnyValue(stack, Max(0, |stack| - 3) + 1, |stack|, "RETURN")
  }

  /** A returned operand followed by something other than the terminator. */
  predicate MissingReturnPeriod(p: Token, stack: seq<Sym>, lookahead: Option<Token>) {
    && p.kind in OperandKinds && |stack| > 2
    && ReturnNearTop(stack)
    && LookaheadOtherThan(lookahead, {EOL})
  }

  const AssignmentReason := "Missing period (.) at the end of statement"
  const CallReason := "Missing period (.) at the end of function call"
  const ReturnReason := "Missing period (.) at the end of return statement"

  /** The messages the check appends, in the order it appends them. */
  function StatementMessages(p: Token, stack: seq<Sym>, lookahead: Option<Token>): seq<string> {
    When(MissingAssignmentPeriod(p, stack, lookahead), p.line, AssignmentReason)
    + When(MissingCallPeriod(p, stack, lookahead), p.line, CallReason)
    + When(MissingReturnPeriod(p, stack, lookahead), p.line, ReturnReason)
  }

  /** check_statement_errors, with the caller's list before and after. */
  method CheckStatementErrors(p: Token, stack: seq<Sym>, lookahead: Option<Token>, errors: seq<string>)
    returns (handled: bool, errorsOut: seq<string>)
    ensures errorsOut == errors + StatementMessages(p, stack, lookahead)
    ensures handled <==> |errorsOut| > |errors|
  {
    handled := false;

    var a: seq<string> := [];
    if |stack| > 3 && p.kind in OperandKinds {
      var equalsNear := ScanValueToken(stack, |stack| - 3, |stack|, Terminal(EQUALS));
      if equalsNear && LookaheadOtherThan(lookahead, {EOL, RPAREN, RBRACKET}) {
        a := [SyntaxMessage(p.line, AssignmentReason)];
        handled := true;
      }
    }

    var b: seq<string> := [];
    if p.kind == RPAREN && |stack| > 2 {
      var funcCallContext := ScanValueToken(stack, Max(0, |stack| - 4) + 1, |stack|, Terminal(LPAREN));
      if funcCallContext && LookaheadOtherThan(lookahead, {EOL, RBRACKET}) {
        b := [SyntaxMessage(p.line, CallReason)];
        handled := true;
      }
    }

    var c: seq<string> := [];
    if p.kind in OperandKinds && |stack| > 2 {
      var returnContext := ScanValue(stack, Max(0, |stack| - 3) + 1, |stack|, "RETURN");
      if returnContext && LookaheadOtherThan(lookahead, {EOL}) {
        c := [SyntaxMessage(p.line, ReturnReason)];
        handled := true;
      }
    }

    assert StatementMessages(p, stack, lookahead) == a + b + c;
    errorsOut := errors + (a + b + c);
    assert handled <==> |a + b + c| > 0;
  }

  /** Every message the check appends reports the offending token's line. */
  lemma StatementMessagesAtLine(p: Token, stack: seq<Sym>, lookahead: Option<Token>)
    ensures AllAtLine(StatementMessages(p, stack, lookahead), p.line)
  {
    var a := When(MissingAssignmentPeriod(p, stack, lookahead), p.line, AssignmentReason);
    var b := When(MissingCallPeriod(p, stack, lookahead), p.line, CallReason);
    var c := When(MissingReturnPeriod(p, stack, lookahead), p.line, ReturnReason);
    AllAtLineAppend(a, b, p.line);
    AllAtLineAppend(a + b, c, p.line);
  }

  /** When the terminator (or nothing) comes next, no period is missing. */
  lemma {:induction false} NoStatementMessageBeforeTerminator(p: Token, stack: seq<Sym>, lookahead: Option<Token>)
    requires lookahead.None? || lookahead.value.kind == EOL
    ensures StatementMessages(p, stack, lookahead) == []
  {
    assert !MissingAssignmentPeriod(p, stack, lookahead);
    assert !MissingCallPeriod(p, stack, lookahead);
    assert !MissingReturnPeriod(p, stack, lookahead);
  }

  /** A closing parenthesis gets at most the call message; an operand gets at
      most the assignment and the return messages. */
  lemma StatementAtMostTwo(p: Token, stack: seq<Sym>, lookahead: Option<Token>)
    ensures |StatementMessages(p, stack, lookahead)| <= 2
    ensures p.kind == RPAREN ==>
              StatementMessages(p, stack, lookahead) == When(MissingCallPeriod(p, stack, lookahead), p.line, CallReason)
  {
    assert RPAREN !in OperandKinds;
  }

  /** Both operand messages do occur together: `x = return y` style stacks. */
  lemma StatementTwoAtOnce()
    ensures |StatementMessages(
               Token(IDENTIFIER, LitStr("y"), 7),
               [Sym(None, None), Sym(None, Some(Tok(Terminal(EQUALS)))), Sym(None, Some(Text("RETURN"))), Sym(None, None)],
               Some(Token(IDENTIFIER, LitStr("z"), 7)))| == 2
  {
    var stack := [Sym(None, None), Sym(None, Some(Tok(Terminal(EQUALS)))), Sym(None, Some(Text("RETURN"))), Sym(None, None)];
    assert ValueTokenIs(stack[1], Terminal(EQUALS));
    assert EqualsInTopThree(stack);
    assert ValueIs(stack[2], "RETURN");
    assert ReturnNearTop(stack);
    var p := Token(IDENTIFIER, LitStr("y"), 7);
    var la := Some(Token(IDENTIFIER, LitStr("z"), 7));
    assert p.kind in OperandKinds;
    assert la.value.kind !in {EOL, RPAREN, RBRACKET};
    assert MissingAssignmentPeriod(p, stack, la);
    assert !MissingCallPeriod(p, stack, la);
    assert MissingReturnPeriod(p, stack, la);
  }
}
