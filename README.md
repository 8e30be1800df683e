# APBL compiler front end, modelled in Dafny

APBL is a small imperative teaching language. Its Python compiler goes from a
token list to a syntax tree and then checks the tree's meaning.
This project models the front end's core and proves properties of it:

- **Grammar actions** (`grammar_rules.dfy`). The semantic action of every
  grammar rule builds one tree node.
  - Left-recursive statement lists and comma lists keep their items in
    source order.
  - Because `empty` is an alternative of the comma list itself, a leading
    comma is accepted.
  - The tree is a closed `Node` datatype (`ast.dfy`). The dictionary shape
    that `create_node` builds is modelled separately.
- **Parse-error classifier** (`syntax_check.dfy` and the five check
  modules).
  - When PLY reports an unexpected token, the handler runs five checks in
    order: declaration, statement, expression, function, control flow.
    Each check sees the offending token, a snapshot of the parser's symbol
    stack and the lookahead token (`parser_state.dfy`).
  - The first check that appends a message ends the handling. If no check
    fires, a generic "unexpected token" message is recorded. At the end of
    the input a fixed message is recorded.
  - Every check is a method over the caller's error list. It is proved
    against a pure function listing the messages it appends.
  - The module-level variables `errors` and `expected_tokens` become the
    fields of the class `SyntaxChecker`.
- **Parser driver** (`parser_driver.dfy`).
  - The `TokenStream` wrapper hands tokens to PLY one at a time and tracks
    the current line.
  - The precedence table fixes how PLY groups binary operators.
  - `parse` clears the errors, runs the parser, and means to return the tree
    and the collected errors, adding one more entry when the parser raises.
    As written, its call of the output writer passes two arguments to a
    one-argument function, so every run ends in the exception branch (see
    Findings).
- **Semantic analyzer** (`semantic.dfy`). It runs two passes over a program.
  - The first pass registers every top-level function and variable in the
    symbol table and reports each name defined twice.
  - The second pass checks the statements:
    - declarations and assignments of literal values against their types;
    - calls against the callee's parameter count;
    - literal `if`/`while` conditions, which get a warning when they are not
      boolean;
    - return statements against the enclosing function's return type.
  - As written, `analyze_semantics` then imports a writer the output module
    does not define, so it raises instead of returning (see Findings).
  - The class `SemanticAnalyzer` holds the analyzer's fields. Each of its
    methods is proved to leave exactly the state that a pure function of the
    old state describes.
- **Error collector** (`error_collector.dfy`).
  - Each compilation error is a record with a text form.
  - `report_errors` sorts the records by line, putting syntax records first
    on a line, and splits the sorted list into a syntax group and a
    semantic group.

Supporting modules are `wrappers.dfy` (`Option`), `text.dfy` (Python's
`str(int)`, `split`, `join`, `count` and ASCII `lower`) and `tokens.dfy`
(token kinds and values).

Where the code and its own documentation disagree, the model follows the
code:

- `_is_type_compatible` is transitive. Its only widening is int to float.
- Assigning to a name registered as a function compares the value against
  that entry's missing `var_type`, so the message says "Expected None".
- The lexer turns `True`/`False` into a Python bool, and `isinstance(True,
  int)` holds. So a boolean literal is inferred as `int`, never as `bool`.
- The declaration check appends at most three messages in one call, not
  four. See `DeclarationErrors.DeclarationAtMostThree`.

## Model

| member | source | states |
|---|---|---|
| Ast.CreateNode | parser_module/syntax_analyzer/syntax_check.py:19-26 | The node has the `type` tag, defaults `line` and `column` to 0 when the keywords omit them, and keeps every keyword argument unchanged. |
| Tokens.BooleanValue | lexer_module/lexer.py:153-157 | A matched boolean literal becomes a bool that is true exactly when the text is `True`. |
| Text.IntegerDigits | lexer_module/lexer.py:140-144 | The integer part of a printed float keeps its value, has at least one digit and no leading zero. |
| Text.FractionDigits | lexer_module/lexer.py:140-144 | The fraction part of a printed float has at least one digit and no trailing zero beyond the first, and differs from the written digits only by trailing zeros. |
| Tokens.FloatValueExamples | lexer_module/lexer.py:140-144 | `.5` prints as `0.5`, `1.50` as `1.5`, `007.250` as `7.25` and `10.000` as `10.0`. |
| GrammarRules.ProgramNode | parser_module/grammar_rules.py:9-11 | A program node holds exactly the statement list, with the default line 0. |
| GrammarRules.StatementListFirst | parser_module/grammar_rules.py:13-19 | A one-statement list holds just that statement. |
| GrammarRules.ListAppend | parser_module/grammar_rules.py:13-19 | Extending a statement list keeps the old list as a prefix and puts the new statement last; the comma lists take the same step. |
| GrammarRules.StatementListInSourceOrder | parser_module/grammar_rules.py:13-19 | Reducing any non-empty sequence of statements left-recursively yields that sequence in source order. |
| GrammarRules.StatementListOpt | parser_module/grammar_rules.py:21-24 | `empty` gives no statements, and otherwise the list is passed through. |
| GrammarRules.BlockStmt | parser_module/grammar_rules.py:103-105 | A block node holds exactly its statements, with line 0. |
| GrammarRules.CommaListBase | parser_module/grammar_rules.py:82-91 | The one-symbol alternatives give no items for `empty` and one item otherwise. |
| GrammarRules.CommaListValueIsItems | parser_module/grammar_rules.py:82-91 | For every derivation of a parameter or argument list, the value built bottom-up is exactly the items the derivation covers, left to right, with commas and `empty` dropped. |
| GrammarRules.LeadingCommaAccepted | parser_module/grammar_rules.py:129-138 | The input `, x` derives a list, and that list holds only `x`. |
| GrammarRules.Param | parser_module/grammar_rules.py:93-98 | A parameter takes its type, its name and the type token's line from the rule's tokens. |
| GrammarRules.DeclarationStmt | parser_module/grammar_rules.py:42-48 | A declaration takes its type, name, value and line from the rule's symbols. |
| GrammarRules.AssignmentStmt | parser_module/grammar_rules.py:63-68 | An assignment takes its target, value and line from the rule's symbols. |
| GrammarRules.FunctionDefStmt | parser_module/grammar_rules.py:73-80 | A definition takes its return type, name, parameters, body and the `function` token's line from the rule's symbols. |
| GrammarRules.FunctionCallExpr | parser_module/grammar_rules.py:122-127 | A call takes its callee name, arguments and line from the rule's symbols. |
| GrammarRules.IfStmt | parser_module/grammar_rules.py:143-156 | An `if` keeps its condition and then-block, and has an else-block exactly when the `else` alternative was used. |
| GrammarRules.WhileStmt | parser_module/grammar_rules.py:158-163 | A `while` keeps its condition and body, with the keyword's line. |
| GrammarRules.ReturnStmt | parser_module/grammar_rules.py:165-169 | A return holds its value, with the keyword's line. |
| GrammarRules.BinaryOpExpr | parser_module/grammar_rules.py:174-189 | A binary node keeps both operands and the operator text, with the operator's line. |
| GrammarRules.ParenExpr | parser_module/grammar_rules.py:191-193 | Parentheses add no node: the inner expression is the value. |
| GrammarRules.AtomExpr | parser_module/grammar_rules.py:195-210 | A literal token gives a literal node, an identifier gives an identifier node, and a reduced call is passed through. |
| ParserState.ScanValueToken | parser_module/syntax_analyzer/function_errors.py:99-104 | The backward scan with `break` finds a token-valued entry of the kind exactly when one exists in the window. |
| ParserState.ScanValue | parser_module/syntax_analyzer/function_errors.py:23-26 | The backward scan finds an entry with the value exactly when one exists in the window. |
| ParserState.CountValuePositive | parser_module/syntax_analyzer/function_errors.py:61-67 | The count of entries with a value is positive exactly when such an entry exists. |
| ParserState.NearestControlIndex | parser_module/syntax_analyzer/control_flow_errors.py:64-68 | A found index lies above the bottom entry and below the window's top, and holds IF or WHILE. |
| ParserState.NearestControlKeyword | parser_module/syntax_analyzer/control_flow_errors.py:64-68 | A found keyword is IF or WHILE. |
| ParserState.NearestControlIndexIsTopmost | parser_module/syntax_analyzer/control_flow_errors.py:64-68 | Nothing is found exactly when no entry above the bottom holds IF or WHILE. A found index is the topmost such entry. |
| ParserState.FindControlKeyword | parser_module/syntax_analyzer/control_flow_errors.py:63-68 | The scanning loop returns the nearest IF/WHILE, and returns nothing exactly when the stack above the bottom has none. |
| ParserState.SyntaxMessage | parser_module/syntax_analyzer/declaration_errors.py:13 | Every check message starts with the syntax-error prefix for its line. |
| ParserState.PrefixNamesLine | parser_module/syntax_analyzer/declaration_errors.py:13 | Reading the line number back from a message with that prefix gives the line, whatever text follows. |
| ParserState.SyntaxMessageLine | parser_module/syntax_analyzer/declaration_errors.py:13 | A check message names exactly the line it was built with. |
| ParserState.AllAtLineNamesLine | parser_module/syntax_analyzer/syntax_check.py:74-83 | Every message of a list of diagnostics for a line names that line. |
| ParserState.When | parser_module/syntax_analyzer/declaration_errors.py:11-16 | A test appends its one message exactly when it fires, and nothing otherwise. |
| ParserState.AllAtLineAppend | parser_module/syntax_analyzer/declaration_errors.py:5-56 | Messages gathered from several tests on one token all stay diagnostics for that token's line. |
| DeclarationErrors.CheckMissingPeriod | parser_module/syntax_analyzer/declaration_errors.py:39-54 | The fourth test's scan for `=` near the top reports exactly when an operand follows `=` and the lookahead is not the terminator. |
| DeclarationErrors.CheckDeclarationErrors | parser_module/syntax_analyzer/declaration_errors.py:5-56 | The list grows by exactly the messages of the four tests, in order, and the result is true exactly when something was appended. |
| DeclarationErrors.DeclarationMessagesAtLine | parser_module/syntax_analyzer/declaration_errors.py:5-56 | Every declaration message reports the offending token's line. |
| DeclarationErrors.DeclarationAtMostThree | parser_module/syntax_analyzer/declaration_errors.py:11-36 | The missing-type and missing-expression tests need different tokens, so one call appends at most three messages. |
| DeclarationErrors.DeclarationThreeAtOnce | parser_module/syntax_analyzer/declaration_errors.py:5-56 | The bound is reached: some stack makes one call append three messages. |
| DeclarationErrors.DeclarationWithoutLookahead | parser_module/syntax_analyzer/declaration_errors.py:5-56 | At the end of the input only the missing-type test can fire. |
| DeclarationErrors.EqualsNearTopIsTopThree | parser_module/syntax_analyzer/declaration_errors.py:41-43 | On a stack of more than four entries, the scanned window is exactly the top three entries. |
| StatementErrors.CheckStatementErrors | parser_module/syntax_analyzer/statement_errors.py:5-58 | The list grows by exactly the assignment, call and return messages, in that order, and the result is true exactly when something was appended. |
| StatementErrors.StatementMessagesAtLine | parser_module/syntax_analyzer/statement_errors.py:5-58 | Every statement message reports the offending token's line. |
| StatementErrors.NoStatementMessageBeforeTerminator | parser_module/syntax_analyzer/statement_errors.py:11-56 | When the terminator or nothing comes next, no period is reported missing. |
| StatementErrors.StatementAtMostTwo | parser_module/syntax_analyzer/statement_errors.py:5-58 | One call appends at most two messages, and a closing parenthesis gets at most the call message. |
| StatementErrors.StatementTwoAtOnce | parser_module/syntax_analyzer/statement_errors.py:11-56 | The bound is reached: an operand can get the assignment and the return message together. |
| ExpressionErrors.CheckExpressionErrors | parser_module/syntax_analyzer/expression_errors.py:5-44 | The list grows by exactly the unmatched-parenthesis, right-operand and empty-parenthesis messages, and the result is true exactly when something was appended. |
| ExpressionErrors.ExpressionMessagesAtLine | parser_module/syntax_analyzer/expression_errors.py:5-44 | Every expression message reports the offending token's line. |
| ExpressionErrors.ExpressionAtMostOne | parser_module/syntax_analyzer/expression_errors.py:5-44 | The three tests need different tokens, so one call appends at most one message, and a token that is not an operator or a parenthesis gets none. |
| ExpressionErrors.ExpressionIgnoresBottom | parser_module/syntax_analyzer/expression_errors.py:15-26 | Changing the bottom stack entry never changes the check's result. |
| ExpressionErrors.ClosingParenUnmatched | parser_module/syntax_analyzer/expression_errors.py:15-26 | An RPAREN token on a stack with no entry valued the string `LPAREN` above the bottom gets exactly the unmatched-parenthesis message. |
| ExpressionErrors.OperatorBeforeTerminator | parser_module/syntax_analyzer/expression_errors.py:29-34 | An operator followed by the terminator is always reported, and the message names the operator. |
| FunctionErrors.ScanHeader | parser_module/syntax_analyzer/function_errors.py:39-47 | The scan finds an entry whose value is one of the strings `INT_TYPE` … `VOID`, directly above an entry whose value is the string `FUNCTION`, exactly when the window holds such a pair. |
| FunctionErrors.ScanParens | parser_module/syntax_analyzer/function_errors.py:59-67 | The flag says whether an opening parenthesis occurs above the bottom entry. The depth is the number of openings minus closings there. |
| FunctionErrors.CheckFunctionName | parser_module/syntax_analyzer/function_errors.py:20-33 | A type-keyword token whose stack top has the string value `FUNCTION`, followed by a token other than IDENTIFIER, is reported, and nothing else is. |
| FunctionErrors.CheckOpenParen | parser_module/syntax_analyzer/function_errors.py:36-54 | An identifier token below which the stack holds an entry valued the string `FUNCTION` and then one valued a type-keyword name such as `INT_TYPE`, followed by a token other than LPAREN, is reported with the identifier's text, and nothing else is. |
| FunctionErrors.CheckCloseParen | parser_module/syntax_analyzer/function_errors.py:57-76 | An identifier inside an unclosed parenthesis, followed by neither `)` nor `,`, is reported, and nothing else is. |
| FunctionErrors.CheckBodyBracket | parser_module/syntax_analyzer/function_errors.py:79-93 | An RPAREN token with an entry valued the string `FUNCTION` in the window, followed by a token other than `[` (LBRACKET), is reported, and nothing else is; only the message text prints `'{'`. |
| FunctionErrors.CheckFunctionErrors | parser_module/syntax_analyzer/function_errors.py:5-112 | The list grows by exactly the five tests' messages in order (the call test never adds one), and the result is true exactly when something was appended. |
| FunctionErrors.FunctionMessagesAtLine | parser_module/syntax_analyzer/function_errors.py:5-112 | Every function message reports the offending token's line. |
| FunctionErrors.CloseParenOnlyForIdentifiers | parser_module/syntax_analyzer/function_errors.py:57-76 | The closing-parenthesis test admits a comma and then refuses it, so it only ever fires on an identifier. |
| FunctionErrors.NoFunctionMessageForCommaOrLParen | parser_module/syntax_analyzer/function_errors.py:57-110 | A comma or an opening parenthesis never gets a function message. |
| FunctionErrors.FunctionAtMostTwo | parser_module/syntax_analyzer/function_errors.py:5-112 | One call appends at most two messages, and only an identifier can get two. |
| FunctionErrors.PositiveDepthHasParen | parser_module/syntax_analyzer/function_errors.py:59-70 | A positive depth implies that an opening parenthesis was seen, so the separate flag is redundant. |
| ControlFlowErrors.LookForCloseParen | parser_module/syntax_analyzer/control_flow_errors.py:73-82 | The three-step lookahead loop finds `)` exactly when one of the three candidate tokens is `)`. |
| ControlFlowErrors.CheckConditions | parser_module/syntax_analyzer/control_flow_errors.py:27-56 | The two empty-condition tests report an LPAREN token whose stack top has the string value `IF` or `WHILE`, followed by an RPAREN lookahead, and nothing else. |
| ControlFlowErrors.CheckConditionClose | parser_module/syntax_analyzer/control_flow_errors.py:59-88 | An operand token below which the stack holds an entry valued the string `IF` or `WHILE`, with no RPAREN among the next candidates, is reported with that string lower-cased. |
| ControlFlowErrors.CheckStatementBodyBracket | parser_module/syntax_analyzer/control_flow_errors.py:91-108 | An RPAREN token below which the stack holds an entry valued the string `IF` or `WHILE`, followed by a token other than `[` (LBRACKET), is reported with that string lower-cased; only the message text prints `'{'`. |
| ControlFlowErrors.CheckEnclosing | parser_module/syntax_analyzer/control_flow_errors.py:59-108 | The two keyword-naming tests append exactly their group's messages. |
| ControlFlowErrors.CheckControlFlowErrors | parser_module/syntax_analyzer/control_flow_errors.py:5-126 | The list grows by exactly the eight tests' messages in order, and the result is true exactly when something was appended. |
| ControlFlowErrors.ControlFlowMessagesAtLine | parser_module/syntax_analyzer/control_flow_errors.py:5-126 | Every control-flow message reports the offending token's line. |
| ControlFlowErrors.CloseParenAheadExplicit | parser_module/syntax_analyzer/control_flow_errors.py:73-82 | The candidates are the parser's lookahead and then the next two stream tokens. Only these can satisfy the search. |
| ControlFlowErrors.RParenAmongGrows | parser_module/syntax_analyzer/control_flow_errors.py:75-82 | Looking at more candidates never loses a `)` already found. |
| ControlFlowErrors.CloseParenAheadWithoutStream | parser_module/syntax_analyzer/control_flow_errors.py:70-82 | Without a token stream, only the parser's own lookahead counts. |
| ControlFlowErrors.ParenMessagesAtMostOne | parser_module/syntax_analyzer/control_flow_errors.py:11-24 | The opening-parenthesis tests give at most one message, and only on IF or WHILE. |
| ControlFlowErrors.ConditionMessagesAtMostOne | parser_module/syntax_analyzer/control_flow_errors.py:27-56 | The empty-condition tests give at most one message, and only on LPAREN. |
| ControlFlowErrors.EnclosingMessagesAtMostOne | parser_module/syntax_analyzer/control_flow_errors.py:59-108 | The keyword-naming tests give at most one message, and only on an operand or RPAREN. |
| ControlFlowErrors.TailMessagesAtMostOne | parser_module/syntax_analyzer/control_flow_errors.py:111-124 | The `else` and `return` tests give at most one message, and only on ELSE or RETURN. |
| ControlFlowErrors.ControlFlowAtMostOne | parser_module/syntax_analyzer/control_flow_errors.py:5-126 | One call never appends more than one message. |
| ControlFlowErrors.GroupsExclusive | parser_module/syntax_analyzer/control_flow_errors.py:5-126 | Groups that fire on pairwise different token kinds add up to at most one message. |
| ControlFlowErrors.KeywordTextIsLowerCase | parser_module/syntax_analyzer/control_flow_errors.py:86 | A keyword found in a condition appears in the message as `if` or `while`. |
| ControlFlowErrors.OperandGroups | parser_module/syntax_analyzer/control_flow_errors.py:5-126 | On an operand, the paren, empty-condition and tail groups and the bracket test stay silent. |
| ControlFlowErrors.OperandOnlyConditionClose | parser_module/syntax_analyzer/control_flow_errors.py:59-88 | On an operand the check's whole result is the closing-parenthesis test's message, or nothing. |
| ControlFlowErrors.OperandAtEndOfInput | parser_module/syntax_analyzer/control_flow_errors.py:59-88 | An operand token with an entry valued the string `IF` or `WHILE` below it and no tokens left is always reported, naming that string lower-cased. |
| Text.NatToString | parser_module/syntax_analyzer/declaration_errors.py:13 | A line number prints as a non-empty string of decimal digits with no leading zero. |
| Text.NatToStringRoundTrip | parser_module/syntax_analyzer/declaration_errors.py:13 | Reading a printed line number back gives the number. |
| Text.NatToStringInjective | parser_module/syntax_analyzer/declaration_errors.py:13 | Different line numbers print differently. |
| Text.TakeDigitsOfDigits | parser_module/syntax_analyzer/declaration_errors.py:13 | The digits in front of the `:` of a message are exactly the printed number. |
| Text.IntToString | utils/error_collector.py:10 | A line prints as a non-empty text with a leading minus exactly when it is negative. |
| Text.IntToStringValue | utils/error_collector.py:10 | After the sign, a printed line is the decimal digits of its magnitude with no leading zero, and reading them back gives the magnitude. |
| Text.CountPositive | semantic_module/semantic_mod.py:266-269 | `c in s` holds exactly when `c` occurs at least once. |
| Text.Split | semantic_module/semantic_mod.py:266-269 | Splitting gives at least one piece, and no piece contains the separator. |
| Text.SplitCount | semantic_module/semantic_mod.py:266-269 | Splitting gives exactly one more piece than the separator occurs. |
| Text.JoinSplit | semantic_module/semantic_mod.py:266-269 | Joining the pieces with the separator rebuilds the string. |
| Text.Lower | parser_module/syntax_analyzer/control_flow_errors.py:86 | Lower-casing keeps the length and folds every character separately. |
| SyntaxCheck.ExpectedNames | parser_module/syntax_analyzer/syntax_check.py:37-43 | A state's list has at most one name per action. |
| SyntaxCheck.ExpectedNamesMembers | parser_module/syntax_analyzer/syntax_check.py:37-43 | A name is expected exactly when some action's token id has that name and the name is not `error`. |
| SyntaxCheck.ExpectedTableShape | parser_module/syntax_analyzer/syntax_check.py:31-44 | The table has exactly the action table's states and never lists `error`. With distinct states, each state gets its own actions' names. |
| SyntaxCheck.CollectExpected | parser_module/syntax_analyzer/syntax_check.py:37-43 | The inner loop builds the state's list of expected names. |
| SyntaxCheck.ErrorText | parser_module/syntax_analyzer/syntax_check.py:50-59 | With a production the message names its line, and without one it names no line. |
| SyntaxCheck.Next | parser_module/syntax_analyzer/syntax_check.py:74-83 | The checks run in a fixed order, and the control-flow check is the last. |
| SyntaxCheck.ClassifyFromIsFirst | parser_module/syntax_analyzer/syntax_check.py:74-92 | From any check on, the recognising check is the first whose messages are non-empty. The generic message is used exactly when none has messages. |
| SyntaxCheck.RecognisedByFirstCheck | parser_module/syntax_analyzer/syntax_check.py:68-92 | A token recognised by a check was recognised by the first check in order that appends something. Only that check's messages are kept. |
| SyntaxCheck.UnrecognisedIffNoCheckFires | parser_module/syntax_analyzer/syntax_check.py:74-92 | The generic message is recorded exactly when no check fires, and then it is the only message. |
| SyntaxCheck.CheckMessagesBounded | parser_module/syntax_analyzer/syntax_check.py:74-83 | Any one check appends at most three messages, all about the offending token's line. |
| SyntaxCheck.CheckMessagesBoundedAll | parser_module/syntax_analyzer/syntax_check.py:74-83 | The same bounds hold for all five checks at once. |
| SyntaxCheck.ClassifyFromBounded | parser_module/syntax_analyzer/syntax_check.py:74-92 | With bounded checks, the decision leaves one to three messages about the line. |
| SyntaxCheck.ClassifiedMessagesCount | parser_module/syntax_analyzer/syntax_check.py:64-94 | Every parser error leaves at least one and at most three messages. |
| SyntaxCheck.ClassifiedMessagesAllAtLine | parser_module/syntax_analyzer/syntax_check.py:68-92 | Every message about a token is a syntax diagnostic for that token's line. |
| SyntaxCheck.ClassifiedMessagesAtLine | parser_module/syntax_analyzer/syntax_check.py:68-92 | Every message about a token names that token's line. |
| SyntaxCheck.RunCheck | parser_module/syntax_analyzer/syntax_check.py:74-83 | Running one check appends that check's messages and reports whether it fired. |
| SyntaxCheck.RunFrom | parser_module/syntax_analyzer/syntax_check.py:74-92 | The chain of checks with early return appends exactly the messages that the decision keeps. |
| SyntaxCheck.SyntaxChecker.constructor | parser_module/syntax_analyzer/syntax_check.py:12-14 | The errors and the expected table start empty. |
| SyntaxCheck.SyntaxChecker.SetupErrorHandler | parser_module/syntax_analyzer/syntax_check.py:31-44 | The expected table is rebuilt from the action table, and the errors are unchanged. |
| SyntaxCheck.SyntaxChecker.GetExpectedTokens | parser_module/syntax_analyzer/syntax_check.py:46-48 | A known state gives its list and an unknown state gives nothing. The list never holds `error`. |
| SyntaxCheck.SyntaxChecker.HandleError | parser_module/syntax_analyzer/syntax_check.py:50-59 | The formatted message is appended and returned, and the table is unchanged. |
| SyntaxCheck.SyntaxChecker.HandleParserError | parser_module/syntax_analyzer/syntax_check.py:64-94 | The errors grow by exactly the classified messages, computed with the state's expected tokens. |
| SyntaxCheck.SyntaxChecker.RecoverMissingType | parser_module/syntax_analyzer/syntax_check.py:99-108 | The rule records the missing-type error and builds a declaration of type `ERROR` at the name's line. |
| SyntaxCheck.SyntaxChecker.RecoverDeclarationPeriod | parser_module/syntax_analyzer/syntax_check.py:110-119 | The rule records the missing-period error and builds the same declaration as the complete rule. |
| SyntaxCheck.SyntaxChecker.RecoverAssignmentPeriod | parser_module/syntax_analyzer/syntax_check.py:121-129 | The rule records the missing-period error and builds the same assignment as the complete rule. |
| SyntaxCheck.SyntaxChecker.RecoverCallPeriod | parser_module/syntax_analyzer/syntax_check.py:131-136 | The rule records the missing-period error and passes the call through. |
| SyntaxCheck.SyntaxChecker.GetErrors | parser_module/syntax_analyzer/syntax_check.py:141-143 | The collected errors are returned. |
| SyntaxCheck.SyntaxChecker.ClearErrors | parser_module/syntax_analyzer/syntax_check.py:145-148 | The errors are forgotten and the expected table stays. |
| ParserDriver.Yields | parser_module/parser_mod.py:39-46 | `n` pulls give exactly `n` results. |
| ParserDriver.YieldsInOrder | parser_module/parser_mod.py:39-46 | From a fresh stream, the k-th pull gives the k-th token while tokens remain, and None after. |
| ParserDriver.YieldsNoneAfterEnd | parser_module/parser_mod.py:39-46 | An exhausted stream gives only None. |
| ParserDriver.TokenStream.constructor | parser_module/parser_mod.py:34-37 | A new stream starts at the first token, on line 1, or on line 0 when the list is empty. |
| ParserDriver.TokenStream.NextToken | parser_module/parser_mod.py:39-46 | The stream hands out the next token and makes its line current, or gives None at the end and changes nothing. |
| ParserDriver.TokenStream.Lineno | parser_module/parser_mod.py:48-53 | The line is the next token's line, or the current line at the end. |
| ParserDriver.TokenStream.Pull | parser_module/parser_mod.py:39-46 | `n` calls of `token()` give what `Yields` describes, and stop advancing at the end. |
| ParserDriver.Level | parser_module/parser_mod.py:19-23 | A token's level is the position of its table row, and 0 means it is in no row. |
| ParserDriver.PrecedenceLevels | parser_module/parser_mod.py:19-23 | Exactly the ten operators have a level. Comparisons bind loosest, then the additive operators, then the multiplicative ones. |
| ParserDriver.ResolveGrouping | parser_module/parser_mod.py:19-23 | A tighter next operator is shifted, and two comparisons in a row are a syntax error (nonassoc). Everything else reduces, so `+ -` and `* /` group to the left. |
| ParserDriver.EventMessageLists | parser_module/parser_mod.py:58-60 | A run gives one message list per error event. |
| ParserDriver.HandlerMessagesCount | parser_module/parser_mod.py:58-60 | A run with `k` error events leaves between `k` and `3k` handler messages. |
| ParserDriver.ParseResult | parser_module/parser_mod.py:73-113 | No run returns a tree. The handler messages come first, followed by exactly one "Parsing error" entry: the run's own exception, or, for a run that returned, the TypeError of calling the one-argument writer with two arguments. |
| ParserDriver.ParseResultIntended | parser_module/parser_mod.py:73-113 | With a matching writer call, a returned tree and the handler messages are passed on unchanged, and only a raise gives no tree and one final "Parsing error" entry. |
| ParserDriver.ReturnedTreeIsLost | parser_module/parser_mod.py:94-106 | A run with no syntax errors that builds a tree yields no tree and the writer's TypeError as written, and the tree with no errors as intended. |
| ParserDriver.HandleEvent | parser_module/parser_mod.py:58-60 | One handler call appends exactly that event's messages. |
| ParserDriver.HandleEvents | parser_module/parser_mod.py:58-60 | The handler calls of a run append the events' messages in order. |
| ParserDriver.Parse | parser_module/parser_mod.py:73-113 | After clearing the errors, `parse` returns the pair that `ParseResult` describes (never a tree), and the checker's shared list holds exactly the returned errors. |
| Semantic.InferTypeRules | semantic_module/semantic_mod.py:251-274 | Ints and bools are inferred as int and floats as float. A string is inferred as bool when it reads true/false in any case. Otherwise it is a date when it has two `-`, then a time when it has two `:`, and a string in every other case. |
| Semantic.LiteralType | semantic_module/semantic_mod.py:251-274 | Only a literal node has an inferred type. |
| Semantic.CompatibleRules | semantic_module/semantic_mod.py:279-289 | Compatibility is reflexive and transitive, widens int to float only, and is antisymmetric. |
| Semantic.RegisteredNamesMembers | semantic_module/semantic_mod.py:35-46 | A name is registered exactly when some top-level function definition or declaration has it. |
| Semantic.RegisterAllKeys | semantic_module/semantic_mod.py:35-77 | The first pass keeps every existing entry, adds exactly the registered names, only appends errors, and leaves the warnings and the current function alone. |
| Semantic.RegisterAllCount | semantic_module/semantic_mod.py:51-77 | Every registrable statement either adds an entry or reports a duplicate. |
| Semantic.DuplicatesReported | semantic_module/semantic_mod.py:51-77 | From a fresh analyzer, the first pass reports one error per repeated definition. |
| Semantic.RegisterAllKeepsFirst | semantic_module/semantic_mod.py:51-77 | A name ends with the entry of its first definition, and later ones are rejected. |
| Semantic.DeclarationErrors | semantic_module/semantic_mod.py:111-125 | A recovered declaration of type `ERROR` gets only the missing-type error. Otherwise there is an error exactly when a literal value has an incompatible type. |
| Semantic.AssignmentErrors | semantic_module/semantic_mod.py:130-144 | An undeclared target gets one error. Otherwise there is an error exactly when a literal value is incompatible with the target's variable type. |
| Semantic.CallErrors | semantic_module/semantic_mod.py:163-178 | An unknown non-builtin name gets one error. A defined function gets an error exactly when the argument count differs. Builtins and variables pass. |
| Semantic.ConditionWarnings | semantic_module/semantic_mod.py:183-212 | A condition is warned about exactly when it is a literal whose inferred type is not bool. |
| Semantic.ReturnReport | semantic_module/semantic_mod.py:217-246 | A return gives at most one error and one warning, and a warning only comes with an error. |
| Semantic.ReturnReportCases | semantic_module/semantic_mod.py:217-246 | Outside a function there is one error, and an unknown function gives nothing. A void function errs exactly when a value is returned. Otherwise a missing value errs, a non-literal passes, and a literal errs exactly when it is incompatible, with the exact mismatch message. A literal gets the warning exactly when the function returns `bool` and the literal is an `int`. |
| Semantic.AnalyzeNodeFrame | semantic_module/semantic_mod.py:82-106 | The second pass never changes the symbol table, restores the current function, and only appends errors and warnings. |
| Semantic.FunctionBodyFrame | semantic_module/semantic_mod.py:149-158 | Analysing a function body restores the previous current function and only appends. |
| Semantic.BranchesFrame | semantic_module/semantic_mod.py:183-196 | Analysing an `if` only appends errors and warnings. |
| Semantic.LoopFrame | semantic_module/semantic_mod.py:201-212 | Analysing a `while` only appends errors and warnings. |
| Semantic.AnalyzeSeqFrame | semantic_module/semantic_mod.py:35-46 | Analysing a statement list only appends errors and warnings. |
| Semantic.BoolLiteralIsInt | semantic_module/semantic_mod.py:183-246 | A boolean literal is inferred as int. So `if (True)` is warned about, and returning True from a bool function gives a mismatch error and a warning. |
| Semantic.AnalyzeFromFresh | semantic_module/semantic_mod.py:17-30 | A missing tree or a non-program root gives exactly one error. Success means no error, and the table is the first pass's table. |
| Semantic.SemanticAnalyzer.constructor | semantic_module/semantic_mod.py:7-12 | A new analyzer has no errors, warnings or symbols, and no current function. |
| Semantic.SemanticAnalyzer.Analyze | semantic_module/semantic_mod.py:17-30 | The returned tuple and the new fields are those `AnalyzeResult` and `AnalyzeState` give for the old state. |
| Semantic.SemanticAnalyzer.AnalyzeProgram | semantic_module/semantic_mod.py:35-46 | All statements are registered first and then analysed, in order. |
| Semantic.SemanticAnalyzer.RegisterFunction | semantic_module/semantic_mod.py:51-62 | The function is registered, or a duplicate is reported. |
| Semantic.SemanticAnalyzer.RegisterVariable | semantic_module/semantic_mod.py:67-77 | The variable is registered, or a duplicate is reported. |
| Semantic.SemanticAnalyzer.AnalyzeStatement | semantic_module/semantic_mod.py:82-106 | The dispatch leaves the state the second-pass function gives for the node. |
| Semantic.SemanticAnalyzer.AnalyzeAssignment | semantic_module/semantic_mod.py:130-144 | The assignment check's errors are appended. |
| Semantic.SemanticAnalyzer.AnalyzeFunctionDef | semantic_module/semantic_mod.py:149-158 | The body is analysed as the current function, and the previous one is restored. |
| Semantic.SemanticAnalyzer.AnalyzeFunctionCall | semantic_module/semantic_mod.py:163-178 | The call check's errors are appended. |
| Semantic.SemanticAnalyzer.AnalyzeIf | semantic_module/semantic_mod.py:183-196 | The condition warning is appended, then both blocks are analysed. |
| Semantic.SemanticAnalyzer.AnalyzeWhile | semantic_module/semantic_mod.py:201-212 | The condition warning is appended, then the body is analysed. |
| Semantic.SemanticAnalyzer.AnalyzeReturn | semantic_module/semantic_mod.py:217-246 | The return check's errors and warnings are appended. |
| Semantic.ImportWriter | semantic_module/semantic_mod.py:301-308 | Importing a writer fails exactly when the output module does not define that name; otherwise the analysis result is returned. |
| Semantic.AnalyzeSemantics | semantic_module/semantic_mod.py:295-308 | Every call ends with the ImportError for `write_semantic_analysis`: the analyzer's result is never returned. |
| Semantic.AnalyzeSemanticsIntended | semantic_module/semantic_mod.py:295-308 | With a writer that exists, the result is that of a fresh analyzer, and success means no errors. |
| ErrorCollection.ColumnSuffix | utils/error_collector.py:11-12 | The column part is empty exactly when the column is None or 0. |
| ErrorCollection.ValueSuffix | utils/error_collector.py:13-14 | The value part is empty exactly when the value is None or empty. |
| ErrorCollection.ToString | utils/error_collector.py:9-15 | The text is exactly `message at line N`, then `, column C` when the column is shown, then `: 'value'` when the value is shown, in all four combinations. |
| ErrorCollection.ToStringLength | utils/error_collector.py:9-15 | The text is longer than `message at line N` by exactly the shown suffixes. |
| ErrorCollection.SortedMeaning | utils/error_collector.py:33 | In sorted order lines never decrease, and on one line no semantic record precedes a syntax record. |
| ErrorCollection.Insert | utils/error_collector.py:33 | Inserting adds exactly one record. |
| ErrorCollection.SortByKey | utils/error_collector.py:33 | Sorting keeps the number of records. |
| ErrorCollection.InsertPermutes | utils/error_collector.py:33 | Inserting adds the record and loses none. |
| ErrorCollection.InsertSorted | utils/error_collector.py:33 | Inserting into a sorted list keeps it sorted. |
| ErrorCollection.InsertWithKey | utils/error_collector.py:33 | Inserting places the record after every record with the same key. |
| ErrorCollection.SortByKeyCorrect | utils/error_collector.py:33 | The sort orders by key, is a permutation, and is stable: records with equal keys keep their order. |
| ErrorCollection.OfPhase | utils/error_collector.py:36-37 | A group holds only records of its phase, taken from the list. |
| ErrorCollection.GroupsPartition | utils/error_collector.py:36-37 | The two groups and the remaining records together count every record once. |
| ErrorCollection.NoOthers | utils/error_collector.py:36-50 | No record is left out of the printed groups exactly when every phase is `syntax` or `semantic`. |
| ErrorCollection.OfPhaseSorted | utils/error_collector.py:36-37 | A group of a sorted list is sorted too. |
| ErrorCollection.ReportOf | utils/error_collector.py:36-50 | The total counts every record, and the groups never exceed it. |
| ErrorCollection.ErrorCollector.constructor | utils/error_collector.py:18-19 | A new collector is empty. |
| ErrorCollection.ErrorCollector.AddError | utils/error_collector.py:21-23 | The new record is appended at the end. |
| ErrorCollection.ErrorCollector.HasErrors | utils/error_collector.py:25-26 | The result is true exactly when some record is held. |
| ErrorCollection.ErrorCollector.ReportErrors | utils/error_collector.py:28-51 | With no records nothing changes and the result is false. Otherwise the records are sorted in place and reported. |
| ErrorCollection.ReportedListIsSorted | utils/error_collector.py:28-51 | After a report the collector holds the same records, stably sorted, and both printed groups are sorted. |

## Left out

- The lexer is not part of this model, apart from its boolean action. Tokens are given as a list.
- PLY's LALR tables and parsing loop are left out. A run is given to `Parse` as the sequence of error events it raised and how it ended. The handler's inputs at each event are part of that sequence: the offending token, a snapshot of the symbol stack, the lookahead and the state.
- SyntaxCheck.SyntaxChecker.SetupErrorHandler: PLY's `parser.action` and `parser.productions` are inputs. The action table is given as a list of states with their token ids. The productions are given as a map from token id to name. The model does not decide whether PLY's productions list ever contains a token id.
- The recovery rules of `syntax_check.py` (`SyntaxCheck.SyntaxChecker.RecoverMissingType`, `RecoverDeclarationPeriod`, `RecoverAssignmentPeriod`, `RecoverCallPeriod`) are modelled as written, but no run of `parse` reaches them: `yacc.yacc()` in `parser_mod.py` collects the `p_` rules of that module's own globals, and `parser_mod.py` and `grammar_rules.py` import only helpers from `syntax_check.py`. So `Parse` never calls them.
- Writing the analysis output files, the prints of `parse` and `report_errors`, `print_tree`, the output handler and `main.py` are I/O and are left out. `report_errors` returns its groups as data instead. The writers' effects are left out; what is modelled is that `parse` and `analyze_semantics` call them wrongly, which raises before anything is written.
- Stack values that are neither strings nor tokens (numbers, nodes, lists) pass no test of any check. So they are folded into an absent value.
- `handle_error`'s `if p` tests a production's truthiness. The model takes an optional line instead.
- Tokens.FloatValue: a float prints in the model as its integer digits without leading zeros, a dot, and its fraction digits without trailing zeros. Python's `str(float)` agrees for everyday values, but switches to exponent form below 1e-4 and from 1e16 on, and rounds beyond about 17 significant digits; the model does not follow either. Only a float's kind matters to type inference.
- Case folding is ASCII only: `Text.Lower` changes only `A`–`Z`.
- A `CompilationError`'s column and value are an optional int and an optional string. Other falsy values are not distinguished.
- Semantic.ReturnReport: its own contract only bounds the report's size. The case-by-case meaning is stated in `Semantic.ReturnReportCases`.
- Semantic.SemanticAnalyzer.AnalyzeFunctionDef, AnalyzeIf and AnalyzeWhile are specified against the per-statement functions `AnalyzeFunctionBody`, `AnalyzeBranches` and `AnalyzeLoop`, which `AnalyzeNode` delegates to.
- The stack snapshot and the lookahead are inputs broader than what PLY gives a handler. In PLY, a terminal's `symstack` entry holds its lexeme and a nonterminal's holds its rule's result, so no entry's value is a token and the checks that test `symstack[i].value.type` (declaration_errors.py:29-31 and :44, statement_errors.py:13-15, function_errors.py:100-102) never fire in a real run. The checks' other stack tests compare an entry's value with a token-kind name: `'IF'`, `'WHILE'`, `'FUNCTION'`, `'LPAREN'`, `'RPAREN'`, `'RETURN'`, or a type-keyword name such as `'INT_TYPE'` (control_flow_errors.py:31, :47, :66, :98; function_errors.py:24, :41-45, :63, :66, :84; expression_errors.py:19; statement_errors.py:47). In a real run the value of a keyword or punctuation entry is its lexeme (`if`, `(`) or, for a type specifier, the text `int`, so these tests match only an identifier spelled exactly like a kind name. The model keeps the comparisons as written and describes them as string tests. One consequence, stated by `ExpressionErrors.ClosingParenUnmatched`: unless an identifier spelled `LPAREN` is on the stack, the expression check reports every RPAREN error as an unmatched closing parenthesis, so the classifier never reaches the function check's body-bracket test or the control-flow check's body-bracket test for it. Likewise, the stack tests for `IF`, `WHILE` and `FUNCTION` never match a real `if`, `while` or `function` keyword, so the tests that depend on them do not fire in a real run. PLY's `LRParser` also sets no `lookahead` attribute, so in a real run a check that reads `parser.lookahead` raises an AttributeError, which `parse` turns into a "Parsing error" entry. The model takes both as given and does not capture that failure.
- DeclarationErrors.DeclarationThreeAtOnce: its witness stack holds token-valued entries, which no PLY run builds. It shows that the bound of `DeclarationAtMostThree` is tight for the function as written, not that a real run reaches three messages.
- StatementErrors.StatementTwoAtOnce: its witness stack holds token-valued entries, which no PLY run builds. It shows that the two-message bound is tight for the function as written, not that a real run reaches it.
- Integers are unbounded. Python's integers are too, so there is no wrap-around to model.

## Findings

| source | as written | input that shows it | evidently intended | confidence | as-written member | corrected member |
|---|---|---|---|---|---|---|
| parser_module/parser_mod.py:102 | `write_syntax_analysis(ast, errors)` calls a writer that takes only the tree (utils/output_handler.py:9), so it raises a TypeError that the surrounding `except Exception` turns into a "Parsing error" entry, and the tree is dropped | any token list the parser accepts, such as a single `int x = 1.` declaration: no tree, errors `["Parsing error: write_syntax_analysis() takes 1 positional argument but 2 were given"]` | return the tree with the syntax errors | not executed | ParserDriver.ReturnedTreeIsLost | ParserDriver.ParseResultIntended |
| semantic_module/semantic_mod.py:301 | `from utils.output_handler import write_semantic_analysis` names a function the output module does not define, so every call raises an ImportError after the analysis | any tree, including None | return `(success, errors, warnings, symbol_table)` | not executed | Semantic.AnalyzeSemantics | Semantic.AnalyzeSemanticsIntended |
