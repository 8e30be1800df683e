/**
 * The declaration check of the parse-error classifier. Its four tests are
 * independent: each may append one message to the error list, and the check
 * reports "handled" exactly when it appended something. It reads the stack
 * snapshot and never changes it.
 */
module DeclarationErrors {
  import opened Wrappers
  import opened Tokens
  import opened ParserState

  /** An identifier right after a complete statement list: the type is missing. */
  predicate MissingType(p: Token, stack: seq<Sym>) {
    p.kind == IDENTIFIER && |stack| > 1 && KindIs(stack[|stack| - 1], Nonterminal("statement_list"))
  }

  /** A typed identifier not followed by `=`. */
  predicate MissingEquals(p: Token, stack: seq<Sym>, lookahead: Option<Token>) {
    && p.kind == IDENTIFIER && |stack| > 2
    && KindIn(stack[|stack| - 2], DataTypeKinds)
    && LookaheadOtherThan(lookahead, {EQUALS})
  }

  /** `=` followed directly by the statement terminator. */
  predicate MissingExpression(p: Token, stack: seq<Sym>, lookahead: Option<Token>) {
    && p.kind == EQUALS && |stack| > 2
    && ValueTokenIs(stack[|stack| - 2], Terminal(IDENTIFIER))
    && LookaheadIs(lookahead, EOL)
  }

  /** The scanned window of the missing-period test: range(len-1, max(0, len-4), -1). */
  predicate EqualsNearTop(stack: seq<Sym>) {
    AnyValueToken(stack, Max(0, |stack| - 4) + 1, |stack|, Terminal(EQUALS))
  }

  /** An operand after `=` that is followed by something other than the terminator. */
  predicate MissingPeriod(p: Token, stack: seq<Sym>, lookahead: Option<Token>) {
    && p.kind in OperandKinds && |stack| > 4
    && EqualsNearTop(stack)
    && LookaheadOtherThan(lookahead, {EOL})
  }

  function TypeReason(p: Token): string {
    "Missing type specifier before identifier '" + ValueText(p.value) + "'"
  }

  function EqualsReason(p: Token): string {
    "Missing '=' after identifier '" + ValueText(p.value) + "' in declaration"
  }

  const ExpressionReason := "Missing expression after '=' in declaration"
  const PeriodReason := "Missing period (.) at the end of declaration"

  /** The messages the check appends, in the order it appends them. */
  function DeclarationMessages(p: Token, stack: seq<Sym>, lookahead: Option<Token>): seq<string> {
    When(MissingType(p, stack), p.line, TypeReason(p))
    + When(MissingEquals(p, stack, lookahead), p.line, EqualsReason(p))
    + When(MissingExpression(p, stack, lookahead), p.line, ExpressionReason)
    + When(MissingPeriod(p, stack, lookahead), p.line, PeriodReason)
  }

  /** The fourth test, with its backward scan for `=` near the top. */
  method CheckMissingPeriod(p: Token, stack: seq<Sym>, lookahead: Option<Token>) returns (d: seq<string>)
    ensures d == When(MissingPeriod(p, stack, lookahead), p.line, PeriodReason)
  {
    d := [];
    if p.kind in OperandKinds && |stack| > 4 {
      var declContext := ScanValueToken(stack, Max(0, |stack| - 4) + 1, |stack|, Terminal(EQUALS));
      if declContext {
        if lookahead.Some? && lookahead.value.kind != EOL {
          d := [SyntaxMessage(p.line, PeriodReason)];
        }
      }
    }
  }

  /** check_declaration_errors: appends to the caller's list in place, modelled
      here as the list before and after. */
  method CheckDeclarationErrors(p: Token, stack: seq<Sym>, lookahead: Option<Token>, errors: seq<string>)
    returns (handled: bool, errorsOut: seq<string>)
    ensures errorsOut == errors + DeclarationMessages(p, stack, lookahead)
    ensures handled <==> |errorsOut| > |errors|
  {
    handled := false;

    var a: seq<string> := [];
    if MissingType(p, stack) {
      a := [SyntaxMessage(p.line, TypeReason(p))];
      handled := true;
    }
    assert a == When(MissingType(p, stack), p.line, TypeReason(p));

    var b: seq<string> := [];
    if MissingEquals(p, stack, lookahead) {
      b := [SyntaxMessage(p.line, EqualsReason(p))];
      handled := true;
    }
    assert b == When(MissingEquals(p, stack, lookahead), p.line, EqualsReason(p));

    var c: seq<string> := [];
    if MissingExpression(p, stack, lookahead) {
      c := [SyntaxMessage(p.line, ExpressionReason)];
      handled := true;
    }
    assert c == When(MissingExpression(p, stack, lookahead), p.line, ExpressionReason);

    var d := CheckMissingPeriod(p, stack, lookahead);
    if d != [] {
      handled := true;
    }
    errorsOut := errors + (a + b + c + d);
    assert handled <==> |a + b + c + d| > 0;
  }

  /** Every message the check appends reports the offending token's line. */
  lemma DeclarationMessagesAtLine(p: Token, stack: seq<Sym>, lookahead: Option<Token>)
    ensures AllAtLine(DeclarationMessages(p, stack, lookahead), p.line)
  {
    var a := When(MissingType(p, stack), p.line, TypeReason(p));
    var b := When(MissingEquals(p, stack, lookahead), p.line, EqualsReason(p));
    var c := When(MissingExpression(p, stack, lookahead), p.line, ExpressionReason);
    var d := When(MissingPeriod(p, stack, lookahead), p.line, PeriodReason);
    AllAtLineAppend(a, b, p.line);
    AllAtLineAppend(a + b, c, p.line);
    AllAtLineAppend(a + b + c, d, p.line);
  }

  /** The missing-type and missing-expression tests need different token kinds,
      so one call appends at most three messages, not four. */
  lemma DeclarationAtMostThree(p: Token, stack: seq<Sym>, lookahead: Option<Token>)
    ensures |DeclarationMessages(p, stack, lookahead)| <= 3
  {
  }

  /** Three messages do occur together: an identifier on top of a statement
      list, under a data type, with `=` nearby, followed by neither `=` nor
      the terminator. */
  lemma DeclarationThreeAtOnce()
    ensures |DeclarationMessages(
               Token(IDENTIFIER, LitStr("x"), 3),
               [Sym(None, None), Sym(None, None), Sym(None, Some(Tok(Terminal(EQUALS)))),
                Sym(Some(Terminal(INT_TYPE)), None), Sym(Some(Nonterminal("statement_list")), None)],
               Some(Token(NUMBER, LitInt(1), 3)))| == 3
  {
    var p := Token(IDENTIFIER, LitStr("x"), 3);
    var lookahead := Some(Token(NUMBER, LitInt(1), 3));
    var stack := [Sym(None, None), Sym(None, None), Sym(None, Some(Tok(Terminal(EQUALS)))),
                  Sym(Some(Terminal(INT_TYPE)), None), Sym(Some(Nonterminal("statement_list")), None)];
    assert ValueTokenIs(stack[2], Terminal(EQUALS));
    assert EqualsNearTop(stack);
    assert MissingType(p, stack);
    assert MissingEquals(p, stack, lookahead);
    assert !MissingExpression(p, stack, lookahead);
    assert MissingPeriod(p, stack, lookahead);
  }

  /** Without a lookahead token only the missing-type test can fire. */
  lemma DeclarationWithoutLookahead(p: Token, stack: seq<Sym>)
    ensures DeclarationMessages(p, stack, None) ==
              (if MissingType(p, stack)
               then [SyntaxMessage(p.line, TypeReason(p))]
               else [])
  {
  }

  /** On a stack of more than four entries the scanned window is the top three. */
  lemma EqualsNearTopIsTopThree(stack: seq<Sym>)
    requires |stack| > 4
    ensures EqualsNearTop(stack) <==>
              (ValueTokenIs(stack[|stack| - 1], Terminal(EQUALS)) || ValueTokenIs(stack[|stack| - 2], Terminal(EQUALS))
               || ValueTokenIs(stack[|stack| - 3], Terminal(EQUALS)))
  {
    var n := |stack|;
    if ValueTokenIs(stack[n - 1], Terminal(EQUALS)) { assert AnyValueToken(stack, n - 3, n, Terminal(EQUALS)); }
    if ValueTokenIs(stack[n - 2], Terminal(EQUALS)) { assert AnyValueToken(stack, n - 3, n, Terminal(EQUALS)); }
    if ValueTokenIs(stack[n - 3], Terminal(EQUALS)) { assert AnyValueToken(stack, n - 3, n, Terminal(EQUALS)); }
  }
}
