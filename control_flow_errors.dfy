/**
 * The control-flow check of the parse-error classifier: missing parentheses,
 * conditions and brackets around `if`, `while` and `else`, and a `return`
 * without an expression. Every test looks at its own token kind (the two
 * condition tests share LPAREN but need different keywords), so one call
 * appends at most one message.
 */
module ControlFlowErrors {
  import opened Wrappers
  import opened Tokens
  import opened Text
  import opened ParserState

  /** What the check can see of the token stream the parser stores on
      itself: the token list and the index of the next unread token. */
  datatype StreamView = StreamView(tokens: seq<Token>, index: nat)

  predicate MissingIfParen(p: Token, lookahead: Option<Token>) {
    p.kind == IF && LookaheadOtherThan(lookahead, {LPAREN})
  }

  predicate MissingWhileParen(p: Token, lookahead: Option<Token>) {
    p.kind == WHILE && LookaheadOtherThan(lookahead, {LPAREN})
  }

  /** The window of the condition tests: range(len-1, max(0, len-2), -1). */
  predicate KeywordJustBelow(stack: seq<Sym>, kw: string) {
    AnyValue(stack, Max(0, |stack| - 2) + 1, |stack|, kw)
  }

  /** `if (` directly followed by `)`. */
  predicate MissingIfCondition(p: Token, stack: seq<Sym>, lookahead: Option<Token>) {
    p.kind == LPAREN && KeywordJustBelow(stack, "IF") && LookaheadIs(lookahead, RPAREN)
  }

  /** `while (` directly followed by `)`. */
  predicate MissingWhileCondition(p: Token, stack: seq<Sym>, lookahead: Option<Token>) {
    p.kind == LPAREN && KeywordJustBelow(stack, "WHILE") && LookaheadIs(lookahead, RPAREN)
  }

  /** The k-th token the lookahead loop examines: first the parser's
      lookahead, then tokens[index + k - 1] of the stream when that exists;
      otherwise the previous candidate is examined again. */
  function Candidate(lookahead: Option<Token>, stream: Option<StreamView>, k: nat): Option<Token> {
    if k == 0 then lookahead
    else if stream.Some? && stream.value.index + (k - 1) < |stream.value.tokens|
    then Some(stream.value.tokens[stream.value.index + (k - 1)])
    else Candidate(lookahead, stream, k - 1)
  }

  /** One of the first n candidates is a closing parenthesis. */
  predicate RParenAmong(lookahead: Option<Token>, stream: Option<StreamView>, n: nat) {
    n > 0 && (RParenAmong(lookahead, stream, n - 1) || LookaheadIs(Candidate(lookahead, stream, n - 1), RPAREN))
  }

  /** The loop `for i in range(3)` looks at three candidates. */
  predicate CloseParenAhead(lookahead: Option<Token>, stream: Option<StreamView>) {
    RParenAmong(lookahead, stream, 3)
  }

  /** An operand inside an if/while condition with no `)` among the next tokens. */
  predicate MissingConditionClose(p: Token, stack: seq<Sym>, lookahead: Option<Token>, stream: Option<StreamView>) {
    p.kind in OperandKinds && NearestControlKeyword(stack).Some? && !CloseParenAhead(lookahead, stream)
  }

  /** `)` of an if/while condition followed by something other than `{`. */
  predicate MissingBodyBracket(p: Token, stack: seq<Sym>, lookahead: Option<Token>) {
    p.kind == RPAREN && NearestControlKeyword(stack).Some? && LookaheadOtherThan(lookahead, {LBRACKET})
  }

  predicate MissingElseBracket(p: Token, lookahead: Option<Token>) {
    p.kind == ELSE && LookaheadOtherThan(lookahead, {LBRACKET})
  }

  predicate MissingReturnExpression(p: Token, lookahead: Option<Token>) {
    p.kind == RETURN && LookaheadIs(lookahead, EOL)
  }

  /** `control_keyword.lower()`; None only when the test does not fire. */
  function KeywordText(kw: Option<string>): string {
    if kw.Some? then Lower(kw.value) else "none"
  }

  const IfParenReason := "Missing opening parenthesis '(' after 'if' keyword"
  const WhileParenReason := "Missing opening parenthesis '(' after 'while' keyword"
  const IfConditionReason := "Missing condition in if statement"
  const WhileConditionReason := "Missing condition in while statement"

  // The fixed parts of the two messages that name the keyword.
  const ConditionCloseHead := "Missing closing parenthesis ')' after condition in "
  const StatementTail := " statement"
  const BodyBracketHead := "Missing opening bracket '{' for "
  const BodyTail := " statement body"

  function ConditionCloseReason(kw: string): string {
    ConditionCloseHead + kw + StatementTail
  }

  function BodyBracketReason(kw: string): string {
    BodyBracketHead + kw + BodyTail
  }

  const ElseReason := "Missing opening bracket '{' after 'else' keyword"
  const ReturnReason := "Missing expression in return statement"

  /** The two opening-parenthesis tests (on IF and on WHILE). */
  function ParenMessages(p: Token, lookahead: Option<Token>): seq<string> {
    When(MissingIfParen(p, lookahead), p.line, IfParenReason)
    + When(MissingWhileParen(p, lookahead), p.line, WhileParenReason)
  }

  /** The two empty-condition tests (both on LPAREN). */
  function ConditionMessages(p: Token, stack: seq<Sym>, lookahead: Option<Token>): seq<string> {
    When(MissingIfCondition(p, stack, lookahead), p.line, IfConditionReason)
    + When(MissingWhileCondition(p, stack, lookahead), p.line, WhileConditionReason)
  }

  /** The two tests that name the enclosing keyword (on an operand and on RPAREN). */
  function EnclosingMessages(p: Token, stack: seq<Sym>, lookahead: Option<Token>, stream: Option<StreamView>): seq<string> {
    var kw := KeywordText(NearestControlKeyword(stack));
    When(MissingConditionClose(p, stack, lookahead, stream), p.line, ConditionCloseReason(kw))
    + When(MissingBodyBracket(p, stack, lookahead), p.line, BodyBracketReason(kw))
  }

  /** The `else` and `return` tests. */
  function TailMessages(p: Token, lookahead: Option<Token>): seq<string> {
    When(MissingElseBracket(p, lookahead), p.line, ElseReason)
    + When(MissingReturnExpression(p, lookahead), p.line, ReturnReason)
  }

  /** The messages the check appends, in the order it appends them. */
  function ControlFlowMessages(p: Token, stack: seq<Sym>, lookahead: Option<Token>, stream: Option<StreamView>): seq<string> {
    ParenMessages(p, lookahead) + ConditionMessages(p, stack, lookahead)
    + EnclosingMessages(p, stack, lookahead, stream) + TailMessages(p, lookahead)
  }

  /** The source's three-step lookahead loop. */
  method LookForCloseParen(lookahead: Option<Token>, stream: Option<StreamView>) returns (parenFound: bool)
    ensures parenFound == CloseParenAhead(lookahead, stream)
  {
    parenFound := false;
    var nextToken := lookahead;
    var i: nat := 0;
    while i < 3
      invariant i <= 3
      invariant nextToken == Candidate(lookahead, stream, i)
      invariant !RParenAmong(lookahead, stream, i)
    {
      if nextToken.Some? && nextToken.value.kind == RPAREN {
        RParenAmongGrows(lookahead, stream, i + 1, 3);
        parenFound := true;
        break;
      }
      if stream.Some? {
        var currentIndex := stream.value.index;
        if currentIndex + i < |stream.value.tokens| {
          nextToken := Some(stream.value.tokens[currentIndex + i]);
        }
      }
      i := i + 1;
    }
  }

  /** The two empty-condition tests of the check. */
  method CheckConditions(p: Token, stack: seq<Sym>, lookahead: Option<Token>) returns (ms: seq<string>)
    ensures ms == ConditionMessages(p, stack, lookahead)
  {
    ms := [];
    if p.kind == LPAREN {
      var ifContext := ScanValue(stack, Max(0, |stack| - 2) + 1, |stack|, "IF");
      if ifContext && LookaheadIs(lookahead, RPAREN) {
        ms := ms + [SyntaxMessage(p.line, IfConditionReason)];
      }
    }
    if p.kind == LPAREN {
      var whileContext := ScanValue(stack, Max(0, |stack| - 2) + 1, |stack|, "WHILE");
      if whileContext && LookaheadIs(lookahead, RPAREN) {
        ms := ms + [SyntaxMessage(p.line, WhileConditionReason)];
      }
    }
  }

  /** The test on an operand inside an if/while condition. */
  method CheckConditionClose(p: Token, stack: seq<Sym>, lookahead: Option<Token>, stream: Option<StreamView>)
    returns (ms: seq<string>)
    ensures ms == When(MissingConditionClose(p, stack, lookahead, stream), p.line,
                       ConditionCloseReason(KeywordText(NearestControlKeyword(stack))))
  {
    ms := [];
    if p.kind in OperandKinds {
      var controlKeyword := FindControlKeyword(stack);
      if controlKeyword.Some? {
        var parenFound := LookForCloseParen(lookahead, stream);
        if !parenFound {
          ms := [SyntaxMessage(p.line, ConditionCloseReason(Lower(controlKeyword.value)))];
        }
      }
    }
  }

  /** The test on the `)` that closes an if/while condition. */
  method CheckStatementBodyBracket(p: Token, stack: seq<Sym>, lookahead: Option<Token>)
    returns (ms: seq<string>)
    ensures ms == When(MissingBodyBracket(p, stack, lookahead), p.line,
                       BodyBracketReason(KeywordText(NearestControlKeyword(stack))))
  {
    ms := [];
    if p.kind == RPAREN {
      var controlKeyword := FindControlKeyword(stack);
      if controlKeyword.Some? && LookaheadOtherThan(lookahead, {LBRACKET}) {
        ms := [SyntaxMessage(p.line, BodyBracketReason(Lower(controlKeyword.value)))];
      }
    }
  }

  /** The two tests of the check that look for the enclosing keyword. */
  method CheckEnclosing(p: Token, stack: seq<Sym>, lookahead: Option<Token>, stream: Option<StreamView>)
    returns (ms: seq<string>)
    ensures ms == EnclosingMessages(p, stack, lookahead, stream)
  {
    var e := CheckConditionClose(p, stack, lookahead, stream);
    var f := CheckStatementBodyBracket(p, stack, lookahead);
    ms := e + f;
  }

  /** check_control_flow_errors, with the caller's list before and after. */
  method CheckControlFlowErrors(p: Token, stack: seq<Sym>, lookahead: Option<Token>, stream: Option<StreamView>,
                                errors: seq<string>)
    returns (handled: bool, errorsOut: seq<string>)
    ensures errorsOut == errors + ControlFlowMessages(p, stack, lookahead, stream)
    ensures handled <==> |errorsOut| > |errors|
  {
    handled := false;

    var a: seq<string> := [];
    if MissingIfParen(p, lookahead) {
      a := [SyntaxMessage(p.line, IfParenReason)];
      handled := true;
    }
    var b: seq<string> := [];
    if MissingWhileParen(p, lookahead) {
      b := [SyntaxMessage(p.line, WhileParenReason)];
      handled := true;
    }
    var cd := CheckConditions(p, stack, lookahead);
    var ef := CheckEnclosing(p, stack, lookahead, stream);
    if cd != [] || ef != [] {
      handled := true;
    }
    var g: seq<string> := [];
    if MissingElseBracket(p, lookahead) {
      g := [SyntaxMessage(p.line, ElseReason)];
      handled := true;
    }
    var h: seq<string> := [];
    if MissingReturnExpression(p, lookahead) {
      h := [SyntaxMessage(p.line, ReturnReason)];
      handled := true;
    }

    assert ParenMessages(p, lookahead) == a + b;
    assert TailMessages(p, lookahead) == g + h;
    errorsOut := errors + ((a + b) + cd + ef + (g + h));
    assert handled <==> |(a + b) + cd + ef + (g + h)| > 0;
  }

  /** Every message the check appends reports the offending token's line. */
  lemma ControlFlowMessagesAtLine(p: Token, stack: seq<Sym>, lookahead: Option<Token>, stream: Option<StreamView>)
    ensures AllAtLine(ControlFlowMessages(p, stack, lookahead, stream), p.line)
  {
    var kw := KeywordText(NearestControlKeyword(stack));
    var pm, cm := ParenMessages(p, lookahead), ConditionMessages(p, stack, lookahead);
    var em, tm := EnclosingMessages(p, stack, lookahead, stream), TailMessages(p, lookahead);
    AllAtLineAppend(When(MissingIfParen(p, lookahead), p.line, IfParenReason),
                    When(MissingWhileParen(p, lookahead), p.line, WhileParenReason), p.line);
    AllAtLineAppend(When(MissingIfCondition(p, stack, lookahead), p.line, IfConditionReason),
                    When(MissingWhileCondition(p, stack, lookahead), p.line, WhileConditionReason), p.line);
    AllAtLineAppend(When(MissingConditionClose(p, stack, lookahead, stream), p.line, ConditionCloseReason(kw)),
                    When(MissingBodyBracket(p, stack, lookahead), p.line, BodyBracketReason(kw)), p.line);
    AllAtLineAppend(When(MissingElseBracket(p, lookahead), p.line, ElseReason),
                    When(MissingReturnExpression(p, lookahead), p.line, ReturnReason), p.line);
    AllAtLineAppend(pm, cm, p.line);
    AllAtLineAppend(pm + cm, em, p.line);
    AllAtLineAppend(pm + cm + em, tm, p.line);
  }

  /** The three candidates, written out: the lookahead token, then the next
      two stream tokens that exist. */
  lemma CloseParenAheadExplicit(lookahead: Option<Token>, stream: Option<StreamView>)
    ensures CloseParenAhead(lookahead, stream) <==>
              || LookaheadIs(lookahead, RPAREN)
              || (stream.Some? && stream.value.index < |stream.value.tokens|
                  && stream.value.tokens[stream.value.index].kind == RPAREN)
              || (stream.Some? && stream.value.index + 1 < |stream.value.tokens|
                  && stream.value.tokens[stream.value.index + 1].kind == RPAREN)
  {
    assert !RParenAmong(lookahead, stream, 0);
    assert RParenAmong(lookahead, stream, 1) <==> LookaheadIs(Candidate(lookahead, stream, 0), RPAREN);
    assert RParenAmong(lookahead, stream, 2) <==>
             RParenAmong(lookahead, stream, 1) || LookaheadIs(Candidate(lookahead, stream, 1), RPAREN);
    assert RParenAmong(lookahead, stream, 3) <==>
             || LookaheadIs(Candidate(lookahead, stream, 0), RPAREN)
             || LookaheadIs(Candidate(lookahead, stream, 1), RPAREN)
             || LookaheadIs(Candidate(lookahead, stream, 2), RPAREN);
  }

  /** A closing parenthesis among the first m candidates is among the first n >= m. */
  lemma {:induction false} RParenAmongGrows(lookahead: Option<Token>, stream: Option<StreamView>, m: nat, n: nat)
    requires m <= n
    ensures RParenAmong(lookahead, stream, m) ==> RParenAmong(lookahead, stream, n)
    decreases n - m
  {
    if m < n {
      RParenAmongGrows(lookahead, stream, m, n - 1);
    }
  }

  /** Without a stream only the parser's own lookahead counts. */
  lemma CloseParenAheadWithoutStream(lookahead: Option<Token>)
    ensures CloseParenAhead(lookahead, None) <==> LookaheadIs(lookahead, RPAREN)
  {
    CloseParenAheadExplicit(lookahead, None);
  }

  lemma ParenMessagesAtMostOne(p: Token, lookahead: Option<Token>)
    ensures |ParenMessages(p, lookahead)| <= 1
    ensures p.kind != IF && p.kind != WHILE ==> |ParenMessages(p, lookahead)| == 0
  {
  }

  /** Both empty-condition tests read the same single entry below the top,
      which cannot be both IF and WHILE. */
  lemma ConditionMessagesAtMostOne(p: Token, stack: seq<Sym>, lookahead: Option<Token>)
    ensures |ConditionMessages(p, stack, lookahead)| <= 1
    ensures p.kind != LPAREN ==> |ConditionMessages(p, stack, lookahead)| == 0
  {
  }

  lemma EnclosingMessagesAtMostOne(p: Token, stack: seq<Sym>, lookahead: Option<Token>, stream: Option<StreamView>)
    ensures |EnclosingMessages(p, stack, lookahead, stream)| <= 1
    ensures p.kind !in OperandKinds && p.kind != RPAREN ==> |EnclosingMessages(p, stack, lookahead, stream)| == 0
  {
  }

  lemma TailMessagesAtMostOne(p: Token, lookahead: Option<Token>)
    ensures |TailMessages(p, lookahead)| <= 1
    ensures p.kind != ELSE && p.kind != RETURN ==> |TailMessages(p, lookahead)| == 0
  {
  }

  /** One call appends at most one message: each group of tests fires on its
      own token kinds, and the two tests of a group exclude each other. */
  lemma ControlFlowAtMostOne(p: Token, stack: seq<Sym>, lookahead: Option<Token>, stream: Option<StreamView>)
    ensures |ControlFlowMessages(p, stack, lookahead, stream)| <= 1
  {
    ParenMessagesAtMostOne(p, lookahead);
    ConditionMessagesAtMostOne(p, stack, lookahead);
    EnclosingMessagesAtMostOne(p, stack, lookahead, stream);
    TailMessagesAtMostOne(p, lookahead);
    GroupsExclusive(|ParenMessages(p, lookahead)|, |ConditionMessages(p, stack, lookahead)|,
                    |EnclosingMessages(p, stack, lookahead, stream)|, |TailMessages(p, lookahead)|, p.kind);
  }

  /** The token kinds the four groups fire on are pairwise disjoint. */
  lemma GroupsExclusive(a: nat, b: nat, c: nat, d: nat, k: Kind)
    requires a <= 1 && b <= 1 && c <= 1 && d <= 1
    requires k != IF && k != WHILE ==> a == 0
    requires k != LPAREN ==> b == 0
    requires k !in OperandKinds && k != RPAREN ==> c == 0
    requires k != ELSE && k != RETURN ==> d == 0
    ensures a + b + c + d <= 1
  {
  }

  /** The keyword in the closing-parenthesis and bracket messages is the
      nearest IF or WHILE below the top, written in lower case. */
  lemma KeywordTextIsLowerCase(stack: seq<Sym>)
    requires NearestControlKeyword(stack).Some?
    ensures KeywordText(NearestControlKeyword(stack)) in ["if", "while"]
  {
    var kw := NearestControlKeyword(stack).value;
    if kw == "IF" {
      assert Lower(kw) == "if";
    } else {
      assert kw == "WHILE";
      assert Lower(kw) == "while";
    }
  }

  /** The four groups of an operand: only the enclosing group can add anything. */
  lemma OperandGroups(p: Token, stack: seq<Sym>, lookahead: Option<Token>, stream: Option<StreamView>)
    requires p.kind in OperandKinds
    ensures ParenMessages(p, lookahead) == []
    ensures ConditionMessages(p, stack, lookahead) == []
    ensures TailMessages(p, lookahead) == []
    ensures !MissingBodyBracket(p, stack, lookahead)
  {
    assert IF !in OperandKinds && WHILE !in OperandKinds && LPAREN !in OperandKinds;
    assert RPAREN !in OperandKinds && ELSE !in OperandKinds && RETURN !in OperandKinds;
  }

  /** Appending empty groups around a list leaves it as it is. */
  lemma EmptyAround(a: seq<string>, b: seq<string>, e: seq<string>, f: seq<string>, d: seq<string>)
    requires a == [] && b == [] && f == [] && d == []
    ensures a + b + (e + f) + d == e
  {
  }

  /** On an operand only the closing-parenthesis test can fire. */
  lemma OperandOnlyConditionClose(p: Token, stack: seq<Sym>, lookahead: Option<Token>, stream: Option<StreamView>)
    requires p.kind in OperandKinds
    ensures ControlFlowMessages(p, stack, lookahead, stream) ==
              When(MissingConditionClose(p, stack, lookahead, stream), p.line,
                   ConditionCloseReason(KeywordText(NearestControlKeyword(stack))))
  {
    OperandGroups(p, stack, lookahead, stream);
    var kw := KeywordText(NearestControlKeyword(stack));
    EmptyAround(ParenMessages(p, lookahead), ConditionMessages(p, stack, lookahead),
                When(MissingConditionClose(p, stack, lookahead, stream), p.line, ConditionCloseReason(kw)),
                When(MissingBodyBracket(p, stack, lookahead), p.line, BodyBracketReason(kw)),
                TailMessages(p, lookahead));
  }

  /** An operand in a condition at the end of the input is always reported:
      with no lookahead and no stream there is no `)` to find. */
  lemma OperandAtEndOfInput(p: Token, stack: seq<Sym>)
    requires p.kind in OperandKinds && NearestControlKeyword(stack).Some?
    ensures ControlFlowMessages(p, stack, None, None) ==
              [SyntaxMessage(p.line, ConditionCloseReason(KeywordText(NearestControlKeyword(stack))))]
  {
    CloseParenAheadWithoutStream(None);
    OperandOnlyConditionClose(p, stack, None, None);
  }
}
