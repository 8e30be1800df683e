/**
 * The function check of the parse-error classifier: missing pieces of a
 * function definition (return type, name, parentheses, opening bracket) and
 * an unclosed parameter list. A sixth test, for calls with an argument list,
 * recognises its context but never reports anything.
 */
module FunctionErrors {
  import opened Wrappers
  import opened Tokens
  import opened ParserState

  /** `function` followed by something other than a type specifier. */
  predicate MissingReturnType(p: Token, lookahead: Option<Token>) {
    p.kind == FUNCTION && LookaheadOtherThan(lookahead, TypeKinds)
  }

  /** The window of the name test: range(len-1, max(0, len-2), -1). */
  predicate FunctionJustBelow(stack: seq<Sym>) {
    AnyValue(stack, Max(0, |stack| - 2) + 1, |stack|, "FUNCTION")
  }

  /** A return type after `function`, followed by something other than a name. */
  predicate MissingFunctionName(p: Token, stack: seq<Sym>, lookahead: Option<Token>) {
    && p.kind in TypeKinds
    && FunctionJustBelow(stack)
    && LookaheadOtherThan(lookahead, {IDENTIFIER})
  }

  /** Entry i holds a type name and entry i-1 the text 'FUNCTION'. */
  predicate HeaderAt(stack: seq<Sym>, i: int)
    requires 0 <= i < |stack|
  {
    ValueIn(stack[i], TypeKindNames) && i > 0 && ValueIs(stack[i - 1], "FUNCTION")
  }

  /** Some index of [lo, hi) is the type of a function header. */
  predicate AnyHeader(stack: seq<Sym>, lo: int, hi: int)
    requires 0 <= lo && 0 <= hi <= |stack|
  {
    exists i :: lo <= i < hi && HeaderAt(stack, i)
  }

  /** The header test's backward scan. */
  method ScanHeader(stack: seq<Sym>, lo: int, hi: int) returns (found: bool)
    requires 0 <= lo && 0 <= hi <= |stack|
    ensures found == AnyHeader(stack, lo, hi)
  {
    found := false;
    var i := hi - 1;
    while i >= lo
      invariant -1 <= i < hi
      invariant forall j :: i < j < hi ==> !HeaderAt(stack, j)
    {
      if ValueIn(stack[i], TypeKindNames) {
        if i > 0 && ValueIs(stack[i - 1], "FUNCTION") {
          assert HeaderAt(stack, i);
          found := true;
          break;
        }
      }
      i := i - 1;
    }
  }

  /** The window of the parenthesis test: range(len-2, max(0, len-3), -1). */
  predicate HeaderBelowName(stack: seq<Sym>)
    requires |stack| > 2
  {
    AnyHeader(stack, Max(0, |stack| - 3) + 1, |stack| - 1)
  }

  /** A function name after `function <type>`, followed by something other than `(`. */
  predicate MissingOpenParen(p: Token, stack: seq<Sym>, lookahead: Option<Token>) {
    && p.kind == IDENTIFIER && |stack| > 2
    && HeaderBelowName(stack)
    && LookaheadOtherThan(lookahead, {LPAREN})
  }

  /** Openings minus closings among the entries above the bottom one. */
  function ParenDepth(stack: seq<Sym>): int {
    if |stack| == 0 then 0
    else CountValue(stack, 1, |stack|, "LPAREN") - CountValue(stack, 1, |stack|, "RPAREN")
  }

  /** An identifier inside an unclosed parenthesis, followed by neither `)` nor `,`. */
  predicate MissingCloseParen(p: Token, stack: seq<Sym>, lookahead: Option<Token>) {
    && p.kind in {IDENTIFIER, COMMA} && |stack| > 3
    && AnyValue(stack, 1, |stack|, "LPAREN") && ParenDepth(stack) > 0
    && LookaheadOtherThan(lookahead, {RPAREN, COMMA})
    && p.kind != COMMA && p.value != LitStr(",")
  }

  /** The window of the bracket test: range(len-3, max(0, len-7), -1). */
  predicate FunctionBelowParams(stack: seq<Sym>)
    requires |stack| > 3
  {
    AnyValue(stack, Max(0, |stack| - 7) + 1, |stack| - 2, "FUNCTION")
  }

  /** `)` of a function header followed by something other than `{`. */
  predicate MissingBodyBracket(p: Token, stack: seq<Sym>, lookahead: Option<Token>) {
    && p.kind == RPAREN && |stack| > 3
    && FunctionBelowParams(stack)
    && LookaheadOtherThan(lookahead, {LBRACKET})
  }

  const ReturnTypeReason := "Missing return type after 'function' keyword"
  const NameReason := "Missing function name after return type"

  function OpenParenReason(p: Token): string {
    "Missing opening parenthesis '(' after function name '" + ValueText(p.value) + "'"
  }

  const CloseParenReason := "Missing closing parenthesis ')' or comma in parameter list"
  const BracketReason := "Missing opening bracket '{' for function body"

  /** The messages the check appends, in the order it appends them. */
  function FunctionMessages(p: Token, stack: seq<Sym>, lookahead: Option<Token>): seq<string> {
    When(MissingReturnType(p, lookahead), p.line, ReturnTypeReason)
    + When(MissingFunctionName(p, stack, lookahead), p.line, NameReason)
    + When(MissingOpenParen(p, stack, lookahead), p.line, OpenParenReason(p))
    + When(MissingCloseParen(p, stack, lookahead), p.line, CloseParenReason)
    + When(MissingBodyBracket(p, stack, lookahead), p.line, BracketReason)
  }

  /** The parameter-list scan: whether an opening parenthesis was seen, and
      the depth, over every entry but the bottom one. */
  method ScanParens(stack: seq<Sym>) returns (paramContext: bool, parenDepth: int)
    ensures paramContext == AnyValue(stack, 1, |stack|, "LPAREN")
    ensures parenDepth == ParenDepth(stack)
  {
    paramContext := false;
    parenDepth := 0;
    if |stack| == 0 {
      return;
    }
    var i := |stack| - 1;
    while i > 0
      invariant 0 <= i < |stack|
      invariant paramContext == AnyValue(stack, i + 1, |stack|, "LPAREN")
      invariant parenDepth ==
                  CountValue(stack, i + 1, |stack|, "LPAREN") - CountValue(stack, i + 1, |stack|, "RPAREN")
    {
      if stack[i].value.Some? {
        if ValueIs(stack[i], "LPAREN") {
          parenDepth := parenDepth + 1;
          paramContext := true;
        } else if ValueIs(stack[i], "RPAREN") {
          parenDepth := parenDepth - 1;
        }
      }
      CountValuePositive(stack, i, |stack|, "LPAREN");
      CountValuePositive(stack, i + 1, |stack|, "LPAREN");
      i := i - 1;
    }
  }

  /** The second test, scanning only the top entry for `FUNCTION`. */
  method CheckFunctionName(p: Token, stack: seq<Sym>, lookahead: Option<Token>) returns (b: seq<string>)
    ensures b == When(MissingFunctionName(p, stack, lookahead), p.line, NameReason)
  {
    b := [];
    if p.kind in TypeKinds {
      var funcContext := ScanValue(stack, Max(0, |stack| - 2) + 1, |stack|, "FUNCTION");
      if funcContext && LookaheadOtherThan(lookahead, {IDENTIFIER}) {
        b := [SyntaxMessage(p.line, NameReason)];
      }
    }
  }

  /** The third test, looking for a type tag preceded by `FUNCTION`. */
  method CheckOpenParen(p: Token, stack: seq<Sym>, lookahead: Option<Token>) returns (c: seq<string>)
    ensures c == When(MissingOpenParen(p, stack, lookahead), p.line, OpenParenReason(p))
  {
    c := [];
    if p.kind == IDENTIFIER && |stack| > 2 {
      var funcContext := ScanHeader(stack, Max(0, |stack| - 3) + 1, |stack| - 1);
      if funcContext && LookaheadOtherThan(lookahead, {LPAREN}) {
        c := [SyntaxMessage(p.line, OpenParenReason(p))];
      }
    }
  }

  /** The fourth test, counting parentheses over the whole stack. */
  method CheckCloseParen(p: Token, stack: seq<Sym>, lookahead: Option<Token>) returns (d: seq<string>)
    ensures d == When(MissingCloseParen(p, stack, lookahead), p.line, CloseParenReason)
  {
    d := [];
    if p.kind in {IDENTIFIER, COMMA} && |stack| > 3 {
      var paramContext, parenDepth := ScanParens(stack);
      if paramContext && parenDepth > 0 {
        if LookaheadOtherThan(lookahead, {RPAREN, COMMA}) && p.kind != COMMA && p.value != LitStr(",") {
          d := [SyntaxMessage(p.line, CloseParenReason)];
        }
      }
    }
  }

  /** The fifth test, looking for `FUNCTION` below the parameter list. */
  method CheckBodyBracket(p: Token, stack: seq<Sym>, lookahead: Option<Token>) returns (e: seq<string>)
    ensures e == When(MissingBodyBracket(p, stack, lookahead), p.line, BracketReason)
  {
    e := [];
    if p.kind == RPAREN && |stack| > 3 {
      var funcContext := ScanValue(stack, Max(0, |stack| - 7) + 1, |stack| - 2, "FUNCTION");
      if funcContext && LookaheadOtherThan(lookahead, {LBRACKET}) {
        e := [SyntaxMessage(p.line, BracketReason)];
      }
    }
  }

  /** check_function_errors, with the caller's list before and after. */
  method CheckFunctionErrors(p: Token, stack: seq<Sym>, lookahead: Option<Token>, errors: seq<string>)
    returns (handled: bool, errorsOut: seq<string>)
    ensures errorsOut == errors + FunctionMessages(p, stack, lookahead)
    ensures handled <==> |errorsOut| > |errors|
  {
    handled := false;

    var a: seq<string> := [];
    if MissingReturnType(p, lookahead) {
      a := [SyntaxMessage(p.line, ReturnTypeReason)];
      handled := true;
    }

    var b := CheckFunctionName(p, stack, lookahead);
    var c := CheckOpenParen(p, stack, lookahead);
    var d := CheckCloseParen(p, stack, lookahead);
    var e := CheckBodyBracket(p, stack, lookahead);
    if b + c + d + e != [] {
      handled := true;
    }

    if p.kind == LPAREN {
      // The call test finds its context but reports nothing: an empty
      // argument list is valid.
      var funcCallContext := ScanValueToken(stack, Max(0, |stack| - 2) + 1, |stack|, Nonterminal("callable"));
    }

    assert a == When(MissingReturnType(p, lookahead), p.line, ReturnTypeReason);
    errorsOut := errors + (a + b + c + d + e);
    assert handled <==> |a + b + c + d + e| > 0;
  }

  /** Every message the check appends reports the offending token's line. */
  lemma FunctionMessagesAtLine(p: Token, stack: seq<Sym>, lookahead: Option<Token>)
    ensures AllAtLine(FunctionMessages(p, stack, lookahead), p.line)
  {
    var a := When(MissingReturnType(p, lookahead), p.line, ReturnTypeReason);
    var b := When(MissingFunctionName(p, stack, lookahead), p.line, NameReason);
    var c := When(MissingOpenParen(p, stack, lookahead), p.line, OpenParenReason(p));
    var d := When(MissingCloseParen(p, stack, lookahead), p.line, CloseParenReason);
    var e := When(MissingBodyBracket(p, stack, lookahead), p.line, BracketReason);
    AllAtLineAppend(a, b, p.line);
    AllAtLineAppend(a + b, c, p.line);
    AllAtLineAppend(a + b + c, d, p.line);
    AllAtLineAppend(a + b + c + d, e, p.line);
  }

  /** The closing-parenthesis test accepts a comma token and then refuses it:
      it only ever fires on an identifier. */
  lemma CloseParenOnlyForIdentifiers(p: Token, stack: seq<Sym>, lookahead: Option<Token>)
    ensures MissingCloseParen(p, stack, lookahead) ==> p.kind == IDENTIFIER
  {
  }

  /** A comma or an opening parenthesis never gets a function message. */
  lemma NoFunctionMessageForCommaOrLParen(p: Token, stack: seq<Sym>, lookahead: Option<Token>)
    requires p.kind == COMMA || p.kind == LPAREN
    ensures FunctionMessages(p, stack, lookahead) == []
  {
    assert COMMA !in TypeKinds && LPAREN !in TypeKinds;
  }

  /** Only an identifier can get two messages (name without `(`, and an
      unclosed list); every other token gets at most one. */
  lemma FunctionAtMostTwo(p: Token, stack: seq<Sym>, lookahead: Option<Token>)
    ensures |FunctionMessages(p, stack, lookahead)| <= 2
    ensures p.kind != IDENTIFIER ==> |FunctionMessages(p, stack, lookahead)| <= 1
  {
    assert FUNCTION !in TypeKinds && IDENTIFIER !in TypeKinds && RPAREN !in TypeKinds;
  }

  /** The depth is positive only when some opening parenthesis was seen, so
      the test's separate flag adds nothing. */
  lemma PositiveDepthHasParen(stack: seq<Sym>)
    requires ParenDepth(stack) > 0
    ensures AnyValue(stack, 1, |stack|, "LPAREN")
  {
    CountValuePositive(stack, 1, |stack|, "LPAREN");
  }
}
