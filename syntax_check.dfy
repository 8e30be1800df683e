/**
 * The syntax-error handler PLY calls when the parser fails, the handler's
 * table of expected tokens, the error-recovery productions and the list of
 * collected syntax errors. The source keeps the error list and the expected
 * table in module globals; here they are the two fields of one checker
 * object, and the parser state the handler reads is passed in.
 */
module SyntaxCheck {
  import opened Wrappers
  import opened Tokens
  import Text
  import opened Ast
  import GrammarRules
  import opened ParserState
  import DeclarationErrors
  import StatementErrors
  import ExpressionErrors
  import FunctionErrors
  import ControlFlowErrors

  /** The expected-token names of one parser state: for each action's token
      id, in table order, the name the production table gives it, except
      `error`. */
  function ExpectedNames(actions: seq<string>, names: map<string, string>): (r: seq<string>)
    ensures |r| <= |actions|
  {
    if actions == [] then []
    else
      var t := actions[|actions| - 1];
      ExpectedNames(actions[..|actions| - 1], names)
        + (if t in names && names[t] != "error" then [names[t]] else [])
  }

  /** A name is expected exactly when some action's token id has that name
      and the name is not `error`. */
  lemma {:induction false} ExpectedNamesMembers(actions: seq<string>, names: map<string, string>, n: string)
    ensures n in ExpectedNames(actions, names) <==>
              n != "error" && exists t :: t in actions && t in names && names[t] == n
  {
    if actions != [] {
      var init, t := actions[..|actions| - 1], actions[|actions| - 1];
      assert actions == init + [t];
      ExpectedNamesMembers(init, names, n);
      if n in ExpectedNames(actions, names) && n !in ExpectedNames(init, names) {
        assert t in actions && t in names && names[t] == n;
      }
      if n != "error" && (exists u :: u in actions && u in names && names[u] == n) {
        var u :| u in actions && u in names && names[u] == n;
        if u != t {
          assert u in init;
        }
      }
    }
  }

  /** The expected table for the action table's entries, in order: each
      state maps to the expected names of its entry, a later entry for the
      same state replacing an earlier one. */
  function ExpectedTable(action: seq<(int, seq<string>)>, names: map<string, string>): map<int, seq<string>>
  {
    if action == [] then map[]
    else
      var (state, actions) := action[|action| - 1];
      ExpectedTable(action[..|action| - 1], names)[state := ExpectedNames(actions, names)]
  }

  /** The states the action table's entries name. */
  function StatesOf(action: seq<(int, seq<string>)>): set<int> {
    if action == [] then {} else StatesOf(action[..|action| - 1]) + {action[|action| - 1].0}
  }

  /** Python dict keys: no state has two entries. */
  predicate DistinctStates(action: seq<(int, seq<string>)>) {
    forall i, j :: 0 <= i < j < |action| ==> action[i].0 != action[j].0
  }

  /** The table has exactly the action table's states, never lists the
      `error` token, and with distinct states gives each state the expected
      names of its own entry. */
  lemma {:induction false} ExpectedTableShape(action: seq<(int, seq<string>)>, names: map<string, string>)
    ensures ExpectedTable(action, names).Keys == StatesOf(action)
    ensures forall i :: 0 <= i < |action| ==> action[i].0 in ExpectedTable(action, names)
    ensures forall s :: s in ExpectedTable(action, names) ==> "error" !in ExpectedTable(action, names)[s]
    ensures DistinctStates(action) ==>
              forall i :: 0 <= i < |action| ==> ExpectedTable(action, names)[action[i].0] == ExpectedNames(action[i].1, names)
  {
    if action != [] {
      var init := action[..|action| - 1];
      var (state, actions) := action[|action| - 1];
      ExpectedTableShape(init, names);
      var t := ExpectedTable(action, names);
      forall s | s in t
        ensures "error" !in t[s]
      {
        if s == state && "error" in t[s] {
          ExpectedNamesMembers(actions, names, "error");
        }
      }
      if DistinctStates(action) {
        assert DistinctStates(init) by {
          forall i, j | 0 <= i < j < |init|
            ensures init[i].0 != init[j].0
          {
            assert init[i] == action[i] && init[j] == action[j];
          }
        }
        forall i | 0 <= i < |action|
          ensures t[action[i].0] == ExpectedNames(action[i].1, names)
        {
          if i < |init| {
            assert init[i] == action[i];
            assert action[i].0 != state;
          }
        }
      }
      forall i | 0 <= i < |action|
        ensures action[i].0 in t
      {
        if i < |init| {
          assert init[i] == action[i];
        }
      }
    }
  }

  /** The inner loop of `setup_error_handler` for one state. */
  method CollectExpected(actions: seq<string>, names: map<string, string>) returns (expected: seq<string>)
    ensures expected == ExpectedNames(actions, names)
  {
    expected := [];
    var i := 0;
    while i < |actions|
      invariant 0 <= i <= |actions|
      invariant expected == ExpectedNames(actions[..i], names)
    {
      var tokenId := actions[i];
      assert actions[..i + 1][..i] == actions[..i];
      if tokenId in names {
        var tokenName := names[tokenId];
        if tokenName != "error" {
          expected := expected + [tokenName];
        }
      }
      i := i + 1;
    }
    assert actions[..|actions|] == actions;
  }

  /** The handler's message: with a production, the line of its first
      symbol; without one, no line. */
  function ErrorText(line: Option<nat>, errorType: string, message: string): (m: string)
    ensures line.Some? ==> MessageLine(m) == line
    ensures line.None? ==> MessageLine(m).None?
  {
    var detail := errorType + " - " + message;
    if line.Some? then
      PrefixNamesLine(line.value, SyntaxMessage(line.value, detail));
      SyntaxMessage(line.value, detail)
    else
      assert !("Syntax error at line " <= "Syntax error: " + detail) by {
        assert ("Syntax error: " + detail)[12] == ':';
      }
      "Syntax error: " + detail
  }

  const EndOfFileMessage := "Syntax error: Unexpected end of file"

  /** `Expected one of: ...` when the state expects something, otherwise nothing. */
  function Suggestions(expected: seq<string>): string {
    if |expected| > 0 then "Expected one of: " + Text.Join(expected, ", ") else ""
  }

  /** The message for a token no specific check recognised. */
  function GenericMessage(p: Token, expected: seq<string>): string {
    SyntaxMessage(p.line, "Unexpected token near token '" + KindName(p.kind) + "' with value '"
                          + ValueText(p.value) + "'. " + Suggestions(expected))
  }

  /** The five specific checks, in the order the handler runs them. */
  datatype Check = DeclarationCheck | StatementCheck | ExpressionCheck | FunctionCheck | ControlFlowCheck

  function Rank(c: Check): nat {
    match c
    case DeclarationCheck => 0
    case StatementCheck => 1
    case ExpressionCheck => 2
    case FunctionCheck => 3
    case ControlFlowCheck => 4
  }

  /** The check after `c` in the handler's order, if any. */
  function Next(c: Check): (n: Option<Check>)
    ensures n.Some? ==> Rank(n.value) == Rank(c) + 1
    ensures n.None? <==> c == ControlFlowCheck
  {
    match c
    case DeclarationCheck => Some(StatementCheck)
    case StatementCheck => Some(ExpressionCheck)
    case ExpressionCheck => Some(FunctionCheck)
    case FunctionCheck => Some(ControlFlowCheck)
    case ControlFlowCheck => None
  }

  /** The messages check `c` appends for the offending token. */
  function CheckMessages(c: Check, p: Token, stack: seq<Sym>, lookahead: Option<Token>,
                         stream: Option<ControlFlowErrors.StreamView>): seq<string>
  {
    match c
    case DeclarationCheck => DeclarationErrors.DeclarationMessages(p, stack, lookahead)
    case StatementCheck => StatementErrors.StatementMessages(p, stack, lookahead)
    case ExpressionCheck => ExpressionErrors.ExpressionMessages(p, stack, lookahead)
    case FunctionCheck => FunctionErrors.FunctionMessages(p, stack, lookahead)
    case ControlFlowCheck => ControlFlowErrors.ControlFlowMessages(p, stack, lookahead, stream)
  }

  /** All five checks' results for one parser error, as a table by check. */
  function CheckResults(p: Token, stack: seq<Sym>, lookahead: Option<Token>,
                        stream: Option<ControlFlowErrors.StreamView>): (results: Check -> seq<string>)
  {
    c => CheckMessages(c, p, stack, lookahead, stream)
  }

  /** How the handler dealt with one parser error. */
  datatype Outcome =
    | EndOfInput
    | Recognised(check: Check, messages: seq<string>)
    | Unrecognised(message: string)

  /** The handler's decision from check `c` on, given every check's result:
      the first check that appends anything recognises the error, and when
      none does the generic message is used. */
  function ClassifyFrom(c: Check, results: Check -> seq<string>, generic: string): Outcome
    decreases 4 - Rank(c)
  {
    if results(c) != [] then Recognised(c, results(c))
    else match Next(c)
      case None => Unrecognised(generic)
      case Some(n) => ClassifyFrom(n, results, generic)
  }

  /** handle_parser_error's decision: at end of input the fixed message,
      otherwise the chain of checks from the declaration check on. */
  function Classify(p: Option<Token>, stack: seq<Sym>, lookahead: Option<Token>,
                    stream: Option<ControlFlowErrors.StreamView>, expected: seq<string>): Outcome
  {
    if p.None? then EndOfInput
    else ClassifyFrom(DeclarationCheck, CheckResults(p.value, stack, lookahead, stream),
                      GenericMessage(p.value, expected))
  }

  /** The messages an outcome leaves in the error list. */
  function OutcomeMessages(o: Outcome): seq<string> {
    match o
    case EndOfInput => [EndOfFileMessage]
    case Recognised(_, ms) => ms
    case Unrecognised(m) => [m]
  }

  /** What `handle_parser_error` appends to the error list. */
  function ClassifiedMessages(p: Option<Token>, stack: seq<Sym>, lookahead: Option<Token>,
                              stream: Option<ControlFlowErrors.StreamView>, expected: seq<string>): seq<string>
  {
    OutcomeMessages(Classify(p, stack, lookahead, stream, expected))
  }

  /** Two checks of the same rank are the same check. */
  lemma RankInjective(c: Check, k: Check)
    ensures Rank(c) == Rank(k) <==> c == k
  {
  }

  /** From check `c` on, the recognising check is the first in order whose
      result is non-empty, and it keeps exactly that result; the generic
      message is used exactly when every check from `c` on is empty. */
  lemma {:induction false} ClassifyFromIsFirst(c: Check, results: Check -> seq<string>, generic: string)
    ensures var o := ClassifyFrom(c, results, generic);
            o.Recognised? ==>
              && Rank(c) <= Rank(o.check) && o.messages == results(o.check) && o.messages != []
              && forall k :: Rank(c) <= Rank(k) < Rank(o.check) ==> results(k) == []
    ensures ClassifyFrom(c, results, generic).Unrecognised? <==>
              forall k :: Rank(c) <= Rank(k) ==> results(k) == []
    ensures ClassifyFrom(c, results, generic).Unrecognised? ==>
              ClassifyFrom(c, results, generic).message == generic
    ensures !ClassifyFrom(c, results, generic).EndOfInput?
    decreases 4 - Rank(c)
  {
    if results(c) == [] {
      match Next(c)
      case None =>
        forall k | Rank(c) <= Rank(k)
          ensures results(k) == []
        {
          RankInjective(c, k);
        }
      case Some(n) =>
        ClassifyFromIsFirst(n, results, generic);
        forall k | Rank(c) <= Rank(k) && k != c
          ensures Rank(n) <= Rank(k)
        {
          RankInjective(c, k);
        }
    }
  }

  /** The check that recognises a token is the first in order whose messages
      are non-empty: every earlier check appends nothing, and its own
      messages are what the handler keeps. */
  lemma RecognisedByFirstCheck(p: Token, stack: seq<Sym>, lookahead: Option<Token>,
                               stream: Option<ControlFlowErrors.StreamView>, expected: seq<string>)
    ensures var o := Classify(Some(p), stack, lookahead, stream, expected);
            o.Recognised? ==>
              && o.messages == CheckMessages(o.check, p, stack, lookahead, stream) && o.messages != []
              && forall c :: Rank(c) < Rank(o.check) ==> CheckMessages(c, p, stack, lookahead, stream) == []
  {
    ClassifyFromIsFirst(DeclarationCheck, CheckResults(p, stack, lookahead, stream), GenericMessage(p, expected));
  }

  /** The generic message is used exactly when no check recognises the token. */
  lemma UnrecognisedIffNoCheckFires(p: Token, stack: seq<Sym>, lookahead: Option<Token>,
                                    stream: Option<ControlFlowErrors.StreamView>, expected: seq<string>)
    ensures Classify(Some(p), stack, lookahead, stream, expected).Unrecognised? <==>
              forall c :: CheckMessages(c, p, stack, lookahead, stream) == []
    ensures Classify(Some(p), stack, lookahead, stream, expected).Unrecognised? ==>
              ClassifiedMessages(Some(p), stack, lookahead, stream, expected) == [GenericMessage(p, expected)]
  {
    ClassifyFromIsFirst(DeclarationCheck, CheckResults(p, stack, lookahead, stream), GenericMessage(p, expected));
  }

  /** What one check can contribute: at most three messages, all about the
      token's line. */
  lemma CheckMessagesBounded(c: Check, p: Token, stack: seq<Sym>, lookahead: Option<Token>,
                             stream: Option<ControlFlowErrors.StreamView>)
    ensures |CheckMessages(c, p, stack, lookahead, stream)| <= 3
    ensures AllAtLine(CheckMessages(c, p, stack, lookahead, stream), p.line)
  {
    match c
    case DeclarationCheck =>
      DeclarationErrors.DeclarationAtMostThree(p, stack, lookahead);
      DeclarationErrors.DeclarationMessagesAtLine(p, stack, lookahead);
    case StatementCheck =>
      StatementErrors.StatementAtMostTwo(p, stack, lookahead);
      StatementErrors.StatementMessagesAtLine(p, stack, lookahead);
    case ExpressionCheck =>
      ExpressionErrors.ExpressionAtMostOne(p, stack, lookahead);
      ExpressionErrors.ExpressionMessagesAtLine(p, stack, lookahead);
    case FunctionCheck =>
      FunctionErrors.FunctionAtMostTwo(p, stack, lookahead);
      FunctionErrors.FunctionMessagesAtLine(p, stack, lookahead);
    case ControlFlowCheck =>
      ControlFlowErrors.ControlFlowAtMostOne(p, stack, lookahead, stream);
      ControlFlowErrors.ControlFlowMessagesAtLine(p, stack, lookahead, stream);
  }

  /** The same bounds for all five checks at once. */
  lemma CheckMessagesBoundedAll(p: Token, stack: seq<Sym>, lookahead: Option<Token>,
                                stream: Option<ControlFlowErrors.StreamView>)
    ensures forall k :: |CheckMessages(k, p, stack, lookahead, stream)| <= 3
    ensures forall k :: AllAtLine(CheckMessages(k, p, stack, lookahead, stream), p.line)
  {
    forall k
      ensures |CheckMessages(k, p, stack, lookahead, stream)| <= 3
      ensures AllAtLine(CheckMessages(k, p, stack, lookahead, stream), p.line)
    {
      CheckMessagesBounded(k, p, stack, lookahead, stream);
    }
  }

  /** When every check appends at most three messages about one line and
      the generic message is about that line too, the handler's decision
      leaves between one and three messages, all about that line. */
  lemma {:induction false} ClassifyFromBounded(c: Check, results: Check -> seq<string>, generic: string, line: nat)
    requires forall k :: |results(k)| <= 3 && AllAtLine(results(k), line)
    requires SyntaxPrefix(line) <= generic
    ensures 1 <= |OutcomeMessages(ClassifyFrom(c, results, generic))| <= 3
    ensures AllAtLine(OutcomeMessages(ClassifyFrom(c, results, generic)), line)
    decreases 4 - Rank(c)
  {
    if results(c) == [] {
      match Next(c)
      case None =>
      case Some(n) => ClassifyFromBounded(n, results, generic, line);
    }
  }

  /** Every parser error leaves at least one and at most three messages. */
  lemma ClassifiedMessagesCount(p: Option<Token>, stack: seq<Sym>, lookahead: Option<Token>,
                                stream: Option<ControlFlowErrors.StreamView>, expected: seq<string>)
    ensures 1 <= |ClassifiedMessages(p, stack, lookahead, stream, expected)| <= 3
  {
    if p.Some? {
      CheckMessagesBoundedAll(p.value, stack, lookahead, stream);
      ClassifyFromBounded(DeclarationCheck, CheckResults(p.value, stack, lookahead, stream),
                          GenericMessage(p.value, expected), p.value.line);
    }
  }

  /** Every message about a token is a syntax diagnostic for its line. */
  lemma ClassifiedMessagesAllAtLine(p: Token, stack: seq<Sym>, lookahead: Option<Token>,
                                    stream: Option<ControlFlowErrors.StreamView>, expected: seq<string>)
    ensures AllAtLine(ClassifiedMessages(Some(p), stack, lookahead, stream, expected), p.line)
  {
    CheckMessagesBoundedAll(p, stack, lookahead, stream);
    ClassifyFromBounded(DeclarationCheck, CheckResults(p, stack, lookahead, stream),
                        GenericMessage(p, expected), p.line);
  }

  /** Every message about a token names that token's line. */
  lemma ClassifiedMessagesAtLine(p: Token, stack: seq<Sym>, lookahead: Option<Token>,
                                 stream: Option<ControlFlowErrors.StreamView>, expected: seq<string>)
    ensures forall m :: m in ClassifiedMessages(Some(p), stack, lookahead, stream, expected) ==>
              MessageLine(m) == Some(p.line)
  {
    ClassifiedMessagesAllAtLine(p, stack, lookahead, stream, expected);
    AllAtLineNamesLine(ClassifiedMessages(Some(p), stack, lookahead, stream, expected), p.line);
  }

  /** Run check `c` on the error list, as the handler calls it. */
  method RunCheck(c: Check, tok: Token, stack: seq<Sym>, lookahead: Option<Token>,
                  stream: Option<ControlFlowErrors.StreamView>, ghost results: Check -> seq<string>,
                  errors: seq<string>)
    returns (handled: bool, out: seq<string>)
    requires forall k {:trigger CheckMessages(k, tok, stack, lookahead, stream)} ::
               results(k) == CheckMessages(k, tok, stack, lookahead, stream)
    ensures out == errors + results(c)
    ensures handled <==> results(c) != []
  {
    assert results(c) == CheckMessages(c, tok, stack, lookahead, stream);
    match c
    case DeclarationCheck =>
      handled, out := DeclarationErrors.CheckDeclarationErrors(tok, stack, lookahead, errors);
    case StatementCheck =>
      handled, out := StatementErrors.CheckStatementErrors(tok, stack, lookahead, errors);
    case ExpressionCheck =>
      handled, out := ExpressionErrors.CheckExpressionErrors(tok, stack, lookahead, errors);
    case FunctionCheck =>
      handled, out := FunctionErrors.CheckFunctionErrors(tok, stack, lookahead, errors);
    case ControlFlowCheck =>
      handled, out := ControlFlowErrors.CheckControlFlowErrors(tok, stack, lookahead, stream, errors);
  }

  /** The handler's chain of checks from `c` on: each check appends to the
      list and reports whether it recognised the error; the first that does
      ends the handling, and when none does the generic message is appended.
      `results` is every check's result, which the proof reads instead of
      the checks' definitions. */
  method RunFrom(c: Check, tok: Token, stack: seq<Sym>, lookahead: Option<Token>,
                 stream: Option<ControlFlowErrors.StreamView>, generic: string,
                 ghost results: Check -> seq<string>, errors: seq<string>)
    returns (out: seq<string>)
    requires forall k {:trigger CheckMessages(k, tok, stack, lookahead, stream)} ::
               results(k) == CheckMessages(k, tok, stack, lookahead, stream)
    ensures out == errors + OutcomeMessages(ClassifyFrom(c, results, generic))
    decreases 4 - Rank(c)
  {
    var handled;
    handled, out := RunCheck(c, tok, stack, lookahead, stream, results, errors);
    if !handled {
      match Next(c)
      case None =>
        out := out + [generic];
      case Some(n) =>
        out := RunFrom(n, tok, stack, lookahead, stream, generic, results, out);
    }
  }

  class SyntaxChecker {
    /** The module-level `errors` list. */
    var errors: seq<string>
    /** The module-level `expected_tokens` dictionary, keyed by parser state. */
    var expectedTokens: map<int, seq<string>>

    /** No state ever lists the `error` pseudo-token as expected. */
    ghost predicate Valid()
      reads this
    {
      forall s :: s in expectedTokens ==> "error" !in expectedTokens[s]
    }

    constructor()
      ensures errors == [] && expectedTokens == map[] && Valid()
    {
      errors := [];
      expectedTokens := map[];
    }

    /** setup_error_handler: rebuild the expected table from the parser's
        action table, given as its (state, token ids) entries in table order,
        and the name the production table gives a token id. */
    method SetupErrorHandler(action: seq<(int, seq<string>)>, names: map<string, string>)
      modifies this
      ensures expectedTokens == ExpectedTable(action, names)
      ensures errors == old(errors)
      ensures Valid()
    {
      expectedTokens := map[];
      var i := 0;
      while i < |action|
        invariant 0 <= i <= |action|
        invariant expectedTokens == ExpectedTable(action[..i], names)
        invariant errors == old(errors)
      {
        assert action[..i + 1][..i] == action[..i];
        var (state, actions) := action[i];
        var expected := CollectExpected(actions, names);
        expectedTokens := expectedTokens[state := expected];
        i := i + 1;
      }
      assert action[..|action|] == action;
      ExpectedTableShape(action, names);
    }

    /** get_expected_tokens: the state's list, or nothing for an unknown state. */
    function GetExpectedTokens(state: int): (r: seq<string>)
      reads this
      ensures state in expectedTokens ==> r == expectedTokens[state]
      ensures state !in expectedTokens ==> r == []
      ensures Valid() ==> "error" !in r
    {
      if state in expectedTokens then expectedTokens[state] else []
    }

    /** handle_error: format the message, record it and return it. */
    method HandleError(line: Option<nat>, errorType: string, message: string) returns (msg: string)
      modifies this
      ensures msg == ErrorText(line, errorType, message)
      ensures errors == old(errors) + [msg]
      ensures expectedTokens == old(expectedTokens)
    {
      if line.Some? {
        msg := SyntaxMessage(line.value, errorType + " - " + message);
      } else {
        msg := "Syntax error: " + errorType + " - " + message;
      }
      errors := errors + [msg];
    }

    /** handle_parser_error: `p` is PLY's offending token (None at end of
        input); the symbol stack, the lookahead, the stored token stream and
        the parser state are what the handler reads from the parser. */
    method HandleParserError(p: Option<Token>, stack: seq<Sym>, lookahead: Option<Token>,
                             stream: Option<ControlFlowErrors.StreamView>, state: int)
      modifies this
      ensures errors == old(errors) + ClassifiedMessages(p, stack, lookahead, stream, old(GetExpectedTokens(state)))
      ensures expectedTokens == old(expectedTokens)
    {
      if p.None? {
        errors := errors + [EndOfFileMessage];
        return;
      }
      var expected := GetExpectedTokens(state);
      errors := RunFrom(DeclarationCheck, p.value, stack, lookahead, stream, GenericMessage(p.value, expected),
                        CheckResults(p.value, stack, lookahead, stream), errors);
    }

    /** The recovery rule `declaration_stmt : IDENTIFIER EQUALS expression EOL`:
        record the missing type and build a declaration of type "ERROR". */
    method RecoverMissingType(nameTok: Token, value: Node) returns (node: Node)
      modifies this
      ensures node == Declaration("ERROR", ValueText(nameTok.value), Some(value), nameTok.line)
      ensures errors == old(errors) + [ErrorText(Some(nameTok.line), "Missing type specifier",
                                        "Missing type specifier before identifier '" + ValueText(nameTok.value) + "'")]
      ensures expectedTokens == old(expectedTokens)
    {
      var _ := HandleError(Some(nameTok.line), "Missing type specifier",
                           "Missing type specifier before identifier '" + ValueText(nameTok.value) + "'");
      node := Declaration("ERROR", ValueText(nameTok.value), Some(value), nameTok.line);
    }

    /** The recovery rule `declaration_stmt : type_specifier IDENTIFIER EQUALS
        expression`: the node the regular rule builds, plus a message. */
    method RecoverDeclarationPeriod(typeTok: Token, nameTok: Token, value: Node) returns (node: Node)
      modifies this
      ensures node == GrammarRules.DeclarationStmt(typeTok, nameTok, value)
      ensures errors == old(errors) + [ErrorText(Some(typeTok.line), "Missing end of statement",
                                        "Missing period (EOL) after declaration of '" + ValueText(nameTok.value) + "'")]
      ensures expectedTokens == old(expectedTokens)
    {
      var _ := HandleError(Some(typeTok.line), "Missing end of statement",
                           "Missing period (EOL) after declaration of '" + ValueText(nameTok.value) + "'");
      node := Declaration(ValueText(typeTok.value), ValueText(nameTok.value), Some(value), typeTok.line);
    }

    /** The recovery rule `assignment_stmt : IDENTIFIER EQUALS expression`. */
    method RecoverAssignmentPeriod(targetTok: Token, value: Node) returns (node: Node)
      modifies this
      ensures node == GrammarRules.AssignmentStmt(targetTok, value)
      ensures errors == old(errors) + [ErrorText(Some(targetTok.line), "Missing end of statement",
                                        "Missing period (EOL) after assignment to '" + ValueText(targetTok.value) + "'")]
      ensures expectedTokens == old(expectedTokens)
    {
      var _ := HandleError(Some(targetTok.line), "Missing end of statement",
                           "Missing period (EOL) after assignment to '" + ValueText(targetTok.value) + "'");
      node := Assignment(ValueText(targetTok.value), Some(value), targetTok.line);
    }

    /** The recovery rule `function_call_stmt : function_call`: the call
        itself is the statement. `parse` tracks positions, so the line of the
        `function_call` symbol is that of its first token, the callee, which
        is the line the call node carries. */
    method RecoverCallPeriod(call: Node) returns (node: Node)
      modifies this
      ensures node == call
      ensures errors == old(errors) + [ErrorText(Some(call.line), "Missing end of statement",
                                        "Missing period (EOL) after function call")]
      ensures expectedTokens == old(expectedTokens)
    {
      var _ := HandleError(Some(call.line), "Missing end of statement", "Missing period (EOL) after function call");
      node := call;
    }

    /** get_errors */
    function GetErrors(): (r: seq<string>)
      reads this
      ensures r == errors
    {
      errors
    }

    /** clear_errors: forget every collected error; the expected table stays. */
    method ClearErrors()
      modifies this
      ensures errors == [] && expectedTokens == old(expectedTokens)
    {
      errors := [];
    }
  }
}
