/**
 * The semantic analyzer: a first pass registers the program's top-level
 * functions and variables in a symbol table, and a second pass walks every
 * statement, appending errors and warnings and tracking the function whose
 * body is being analysed.
 *
 * The pure part (literal type inference, type compatibility and what each
 * statement kind reports) is stated as functions on an analyzer state; the
 * class below performs the same walk by updating its fields and is proved
 * to end in the state those functions describe.
 */
module Semantic {
  import opened Wrappers
  import opened Tokens
  import opened Ast
  import Text

  // ---------------------------------------------------------------------
  // Types of literals
  // ---------------------------------------------------------------------

  /** The string is `true` or `false` in any letter case. */
  predicate IsBoolText(s: string) {
    Text.Lower(s) == "true" || Text.Lower(s) == "false"
  }

  /** `_infer_type_from_literal` for a literal's value. A Python bool is an
      int, and the int test comes first, so a boolean literal is an `int`.
      A string is a `bool` when it spells true or false, then a `date` when
      it splits into three pieces at `-`, then a `time` when it splits into
      three pieces at `:`. */
  function InferType(v: Value): string {
    match v
    case LitInt(_) => "int"
    case LitBool(_) => "int"
    case LitFloat(_) => "float"
    case LitStr(s) =>
      if IsBoolText(s) then "bool"
      else if '-' in s && |Text.Split(s, '-')| == 3 then "date"
      else if ':' in s && |Text.Split(s, ':')| == 3 then "time"
      else "string"
  }

  /** The inference rules in terms of the value itself: a string with
      exactly two dashes is a date, failing that one with exactly two colons
      is a time, and the date test wins over the time test. */
  lemma InferTypeRules(v: Value)
    ensures v.LitInt? || v.LitBool? ==> InferType(v) == "int"
    ensures v.LitFloat? ==> InferType(v) == "float"
    ensures v.LitStr? ==> (InferType(v) == "bool" <==> IsBoolText(v.s))
    ensures v.LitStr? ==> (InferType(v) == "date" <==> !IsBoolText(v.s) && Text.Count(v.s, '-') == 2)
    ensures v.LitStr? ==> (InferType(v) == "time" <==>
                             !IsBoolText(v.s) && Text.Count(v.s, '-') != 2 && Text.Count(v.s, ':') == 2)
    ensures v.LitStr? ==> (InferType(v) == "string" <==>
                             !IsBoolText(v.s) && Text.Count(v.s, '-') != 2 && Text.Count(v.s, ':') != 2)
    ensures InferType(v) in {"int", "float", "bool", "date", "time", "string"}
  {
    if v.LitStr? {
      Text.SplitCount(v.s, '-');
      Text.SplitCount(v.s, ':');
      Text.CountPositive(v.s, '-');
      Text.CountPositive(v.s, ':');
    }
  }

  /** `_infer_type_from_literal(node)`: a type for a literal node, None for
      any other node. */
  function LiteralType(node: Node): (t: Option<string>)
    ensures t.Some? <==> node.Literal?
    ensures node.Literal? ==> t == Some(InferType(node.lit))
  {
    if node.Literal? then Some(InferType(node.lit)) else None
  }

  /** `_is_type_compatible(expected, actual)`; a missing type is None. */
  predicate Compatible(expected: Option<string>, actual: Option<string>) {
    expected == actual || (expected == Some("float") && actual == Some("int"))
  }

  /** Every type accepts itself, an int is accepted where a float is
      expected and not the other way round, and acceptance chains. */
  lemma CompatibleRules(a: Option<string>, b: Option<string>, c: Option<string>)
    ensures Compatible(a, a)
    ensures Compatible(Some("float"), Some("int")) && !Compatible(Some("int"), Some("float"))
    ensures Compatible(a, b) && Compatible(b, c) ==> Compatible(a, c)
    ensures Compatible(a, b) && Compatible(b, a) ==> a == b
  {
  }

  /** How a missing type prints in a message (Python's `None`). */
  function TypeName(t: Option<string>): string {
    if t.Some? then t.value else "None"
  }

  // ---------------------------------------------------------------------
  // Symbol table
  // ---------------------------------------------------------------------

  /** A symbol table entry. */
  datatype Entry =
    | FunctionEntry(returnType: string, params: seq<Node>, line: nat)
    | VariableEntry(varType: string, line: nat)
  {
    /** `entry.get('var_type')`: None for a function. */
    function VarType(): Option<string> {
      if VariableEntry? then Some(varType) else None
    }

    /** `entry.get('return_type')`: None for a variable. */
    function ReturnType(): Option<string> {
      if FunctionEntry? then Some(returnType) else None
    }
  }

  /** The analyzer's fields as a value. */
  datatype AnalyzerState = AnalyzerState(errors: seq<string>, warnings: seq<string>,
                                         table: map<string, Entry>, current: Option<string>)

  const Initial := AnalyzerState([], [], map[], None)

  function LinePrefix(line: nat): string {
    "Line " + Text.NatToString(line) + ": "
  }

  const AlreadyDefinedText := "' is already defined"

  function DuplicateFunctionMessage(line: nat, name: string): string {
    LinePrefix(line) + "Function '" + name + AlreadyDefinedText
  }

  function DuplicateVariableMessage(line: nat, name: string): string {
    LinePrefix(line) + "Variable '" + name + AlreadyDefinedText
  }

  /** The statements the first pass registers. */
  predicate Registrable(stmt: Node) {
    stmt.FunctionDef? || stmt.Declaration?
  }

  /** The entry a registrable statement would get. */
  function EntryOf(stmt: Node): Entry
    requires Registrable(stmt)
  {
    if stmt.FunctionDef? then FunctionEntry(stmt.returnType, stmt.params, stmt.line)
    else VariableEntry(stmt.varType, stmt.line)
  }

  /** The message for a registrable statement whose name is taken. */
  function DuplicateMessage(stmt: Node): string
    requires Registrable(stmt)
  {
    if stmt.FunctionDef? then DuplicateFunctionMessage(stmt.line, stmt.name)
    else DuplicateVariableMessage(stmt.line, stmt.name)
  }

  /** The first pass for one statement: a function definition or a
      declaration gets an entry unless its name already has one, in which
      case the entry stays and the duplicate is reported. */
  function Register(st: AnalyzerState, stmt: Node): AnalyzerState {
    if !Registrable(stmt) then st
    else if stmt.name in st.table then st.(errors := st.errors + [DuplicateMessage(stmt)])
    else st.(table := st.table[stmt.name := EntryOf(stmt)])
  }

  /** The first pass over a statement list, in order. */
  function RegisterAll(st: AnalyzerState, stmts: seq<Node>): AnalyzerState {
    if stmts == [] then st
    else Register(RegisterAll(st, stmts[..|stmts| - 1]), stmts[|stmts| - 1])
  }

  /** The names a statement list registers. */
  function RegisteredNames(stmts: seq<Node>): set<string> {
    if stmts == [] then {}
    else RegisteredNames(stmts[..|stmts| - 1])
         + (if Registrable(stmts[|stmts| - 1]) then {stmts[|stmts| - 1].name} else {})
  }

  /** A name is registered by a list exactly when some registrable
      statement of the list carries it. */
  lemma {:induction false} RegisteredNamesMembers(stmts: seq<Node>, name: string)
    ensures name in RegisteredNames(stmts) <==>
              exists j :: 0 <= j < |stmts| && Registrable(stmts[j]) && stmts[j].name == name
  {
    if stmts != [] {
      var init := stmts[..|stmts| - 1];
      RegisteredNamesMembers(init, name);
      if exists j :: 0 <= j < |stmts| && Registrable(stmts[j]) && stmts[j].name == name {
        var j :| 0 <= j < |stmts| && Registrable(stmts[j]) && stmts[j].name == name;
        if j < |init| {
          assert init[j] == stmts[j];
        }
      }
      if exists j :: 0 <= j < |init| && Registrable(init[j]) && init[j].name == name {
        var j :| 0 <= j < |init| && Registrable(init[j]) && init[j].name == name;
        assert stmts[j] == init[j];
      }
    }
  }

  /** How many statements of a list the first pass registers or rejects. */
  function RegistrableCount(stmts: seq<Node>): nat {
    if stmts == [] then 0
    else RegistrableCount(stmts[..|stmts| - 1]) + (if Registrable(stmts[|stmts| - 1]) then 1 else 0)
  }

  /** The first pass keeps every entry it finds and adds exactly the names
      the list registers; the current function and the warnings are not
      touched, and errors are only appended. */
  lemma {:induction false} RegisterAllKeys(st: AnalyzerState, stmts: seq<Node>)
    ensures RegisterAll(st, stmts).table.Keys == st.table.Keys + RegisteredNames(stmts)
    ensures forall k :: k in st.table ==> RegisterAll(st, stmts).table[k] == st.table[k]
    ensures st.errors <= RegisterAll(st, stmts).errors
    ensures RegisterAll(st, stmts).warnings == st.warnings
    ensures RegisterAll(st, stmts).current == st.current
  {
    if stmts != [] {
      RegisterAllKeys(st, stmts[..|stmts| - 1]);
    }
  }

  /** Every registrable statement either adds an entry or reports one
      duplicate, never both. */
  lemma {:induction false} RegisterAllCount(st: AnalyzerState, stmts: seq<Node>)
    ensures |RegisterAll(st, stmts).errors| + |RegisterAll(st, stmts).table| ==
              |st.errors| + |st.table| + RegistrableCount(stmts)
  {
    if stmts != [] {
      var mid := RegisterAll(st, stmts[..|stmts| - 1]);
      var last := stmts[|stmts| - 1];
      RegisterAllCount(st, stmts[..|stmts| - 1]);
      if Registrable(last) && last.name !in mid.table {
        assert |mid.table[last.name := EntryOf(last)]| == |mid.table| + 1;
      }
    }
  }

  /** From a fresh analyzer, the first pass reports one duplicate for every
      registrable statement beyond the first one of each name. */
  lemma DuplicatesReported(stmts: seq<Node>)
    ensures |RegisteredNames(stmts)| <= RegistrableCount(stmts)
    ensures |RegisterAll(Initial, stmts).errors| == RegistrableCount(stmts) - |RegisteredNames(stmts)|
  {
    RegisterAllKeys(Initial, stmts);
    RegisterAllCount(Initial, stmts);
    assert |RegisterAll(Initial, stmts).table| == |RegisterAll(Initial, stmts).table.Keys|;
  }

  /** A name that the table did not hold ends with the entry of the first
      statement that registers it: a later duplicate never replaces it. */
  lemma {:induction false} RegisterAllKeepsFirst(st: AnalyzerState, stmts: seq<Node>, i: nat)
    requires i < |stmts| && Registrable(stmts[i]) && stmts[i].name !in st.table
    requires forall j :: 0 <= j < i && Registrable(stmts[j]) ==> stmts[j].name != stmts[i].name
    ensures stmts[i].name in RegisterAll(st, stmts).table
    ensures RegisterAll(st, stmts).table[stmts[i].name] == EntryOf(stmts[i])
  {
    var init := stmts[..|stmts| - 1];
    var mid := RegisterAll(st, init);
    if i == |stmts| - 1 {
      RegisterAllKeys(st, init);
      RegisteredNamesMembers(init, stmts[i].name);
    } else {
      assert init[i] == stmts[i];
      forall j | 0 <= j < i && Registrable(init[j])
        ensures init[j].name != init[i].name
      {
        assert init[j] == stmts[j];
      }
      RegisterAllKeepsFirst(st, init, i);
    }
  }

  // ---------------------------------------------------------------------
  // What each statement kind reports
  // ---------------------------------------------------------------------

  // The fixed parts of the second pass's messages, in the order they
  // appear in each message.
  const MissingTypeText := "Missing type specifier for variable '"
  const DeclarationMismatchText := "Type mismatch in declaration of '"
  const UndeclaredText := "Assignment to undeclared variable '"
  const AssignmentMismatchText := "Type mismatch in assignment to '"
  const ExpectedText := "'. Expected "
  const GotText := ", got "
  const UndefinedFunctionText := "Call to undefined function '"
  const CalledWithText := "' called with "
  const RequiresText := " arguments but requires "
  const IfWarningText := "If condition should be a boolean expression"
  const WhileWarningText := "While condition should be a boolean expression"
  const ReturnOutsideText := "Return statement outside of function"
  const VoidReturnsValueText := "' is declared as void but returns a value."
  const MissingReturnValueText := "Missing return value in function '"
  const BoolIntWarningText := "Possible incorrect return value in function '"
  const BoolIntWarningTail := "', expected bool but got int."
  const ReturnMismatchText := "Return type mismatch in function '"

  function MissingTypeMessage(line: nat, name: string): string {
    LinePrefix(line) + MissingTypeText + name + "'"
  }

  function DeclarationMismatchMessage(line: nat, name: string, expected: string, actual: string): string {
    LinePrefix(line) + DeclarationMismatchText + name + ExpectedText + expected + GotText + actual
  }

  function UndeclaredMessage(line: nat, target: string): string {
    LinePrefix(line) + UndeclaredText + target + "'"
  }

  function AssignmentMismatchMessage(line: nat, target: string, expected: Option<string>, actual: string): string {
    LinePrefix(line) + AssignmentMismatchText + target + ExpectedText + TypeName(expected) + GotText + actual
  }

  function UndefinedFunctionMessage(line: nat, name: string): string {
    LinePrefix(line) + UndefinedFunctionText + name + "'"
  }

  function ArgumentCountMessage(line: nat, name: string, actual: nat, expected: nat): string {
    LinePrefix(line) + "Function '" + name + CalledWithText + Text.NatToString(actual)
      + RequiresText + Text.NatToString(expected)
  }

  function IfWarning(line: nat): string {
    LinePrefix(line) + IfWarningText
  }

  function WhileWarning(line: nat): string {
    LinePrefix(line) + WhileWarningText
  }

  function ReturnOutsideMessage(line: nat): string {
    LinePrefix(line) + ReturnOutsideText
  }

  function VoidReturnsValueMessage(line: nat, f: string): string {
    LinePrefix(line) + "Function '" + f + VoidReturnsValueText
  }

  function MissingReturnValueMessage(line: nat, f: string): string {
    LinePrefix(line) + MissingReturnValueText + f + "'"
  }

  function BoolIntWarning(line: nat, f: string): string {
    LinePrefix(line) + BoolIntWarningText + f + BoolIntWarningTail
  }

  function ReturnMismatchMessage(line: nat, f: string, expected: Option<string>, actual: string): string {
    LinePrefix(line) + ReturnMismatchText + f + ExpectedText + TypeName(expected) + GotText + actual
  }

  /** The value node is present and a literal. */
  predicate IsLiteral(value: Option<Node>) {
    value.Some? && value.value.Literal?
  }

  /** `_analyze_declaration`: the parser's recovery type `ERROR` is reported
      on its own; otherwise only a literal value is checked against the
      declared type. */
  function DeclarationErrors(node: Node): (r: seq<string>)
    requires node.Declaration?
    ensures |r| <= 1
    ensures node.varType == "ERROR" ==> r == [MissingTypeMessage(node.line, node.name)]
    ensures node.varType != "ERROR" ==>
              (r != [] <==> IsLiteral(node.value) && !Compatible(Some(node.varType), LiteralType(node.value.value)))
  {
    if node.varType == "ERROR" then [MissingTypeMessage(node.line, node.name)]
    else if IsLiteral(node.value) && !Compatible(Some(node.varType), LiteralType(node.value.value)) then
      [DeclarationMismatchMessage(node.line, node.name, node.varType, InferType(node.value.value.lit))]
    else []
  }

  /** `_analyze_assignment`: an unknown target is reported and nothing else
      is checked; a literal value is checked against the target's variable
      type, which a function name does not have. */
  function AssignmentErrors(table: map<string, Entry>, node: Node): (r: seq<string>)
    requires node.Assignment?
    ensures |r| <= 1
    ensures node.target !in table ==> r == [UndeclaredMessage(node.line, node.target)]
    ensures node.target in table ==>
              (r != [] <==> IsLiteral(node.value) && !Compatible(table[node.target].VarType(), LiteralType(node.value.value)))
  {
    if node.target !in table then [UndeclaredMessage(node.line, node.target)]
    else
      var expected := table[node.target].VarType();
      if IsLiteral(node.value) && !Compatible(expected, LiteralType(node.value.value)) then
        [AssignmentMismatchMessage(node.line, node.target, expected, InferType(node.value.value.lit))]
      else []
  }

  /** The functions every program may call without defining them. */
  const Builtins: seq<string> := ["book", "gen", "reg", "display"]

  /** `_analyze_function_call`: an unknown non-builtin name is reported;
      a defined function must get as many arguments as it has parameters;
      a variable's name passes. */
  function CallErrors(table: map<string, Entry>, node: Node): (r: seq<string>)
    requires node.FunctionCall?
    ensures |r| <= 1
    ensures node.name !in table && node.name !in Builtins ==> r == [UndefinedFunctionMessage(node.line, node.name)]
    ensures node.name in table && table[node.name].FunctionEntry? ==>
              (r != [] <==> |node.arguments| != |table[node.name].params|)
    ensures node.name in table && table[node.name].FunctionEntry? && r != [] ==>
              r == [ArgumentCountMessage(node.line, node.name, |node.arguments|, |table[node.name].params|)]
    ensures node.name in table && table[node.name].VariableEntry? ==> r == []
    ensures node.name !in table && node.name in Builtins ==> r == []
  {
    if node.name !in table && node.name !in Builtins then [UndefinedFunctionMessage(node.line, node.name)]
    else if node.name in table && table[node.name].FunctionEntry?
            && |table[node.name].params| != |node.arguments| then
      [ArgumentCountMessage(node.line, node.name, |node.arguments|, |table[node.name].params|)]
    else []
  }

  /** The condition check of `if` and `while`: a literal condition whose type
      is not bool gets the warning; nothing else does. */
  function ConditionWarnings(condition: Node, warning: string): (r: seq<string>)
    ensures r == [] || r == [warning]
    ensures r == [warning] <==> condition.Literal? && InferType(condition.lit) != "bool"
  {
    if condition.Literal? && !Compatible(Some("bool"), LiteralType(condition)) then [warning] else []
  }

  /** What a return statement reports. */
  datatype Report = Report(errors: seq<string>, warnings: seq<string>)

  /** `current_function` is falsy: None or the empty name. */
  predicate OutsideFunction(current: Option<string>) {
    current.None? || current.value == ""
  }

  /** `_analyze_return_statement`. */
  function ReturnReport(table: map<string, Entry>, current: Option<string>, value: Option<Node>, line: nat): (r: Report)
    ensures |r.errors| <= 1 && |r.warnings| <= 1
    ensures r.warnings != [] ==> |r.errors| == 1
  {
    if OutsideFunction(current) then Report([ReturnOutsideMessage(line)], [])
    else if current.value !in table then Report([], [])
    else
      var f := current.value;
      var expected := table[f].ReturnType();
      if expected == Some("void") then
        if value.Some? then Report([VoidReturnsValueMessage(line, f)], []) else Report([], [])
      else if value.None? then Report([MissingReturnValueMessage(line, f)], [])
      else if value.value.Literal? then
        var actual := InferType(value.value.lit);
        Report(if !Compatible(expected, Some(actual)) then [ReturnMismatchMessage(line, f, expected, actual)] else [],
               if expected == Some("bool") && actual == "int" then [BoolIntWarning(line, f)] else [])
      else Report([], [])
  }

  /** What `_analyze_return_statement` reports in each case: outside a
      function, for a function it does not know, for a void function and
      for a function with a declared return type. */
  lemma ReturnReportCases(table: map<string, Entry>, current: Option<string>, value: Option<Node>, line: nat)
    ensures var r := ReturnReport(table, current, value, line);
            && (OutsideFunction(current) ==> r == Report([ReturnOutsideMessage(line)], []))
            && (!OutsideFunction(current) && current.value !in table ==> r == Report([], []))
            && (!OutsideFunction(current) && current.value in table && table[current.value].ReturnType() == Some("void") ==>
                  r.warnings == [] && (r.errors != [] <==> value.Some?))
            && (!OutsideFunction(current) && current.value in table && table[current.value].ReturnType() != Some("void") ==>
                  && (value.None? ==> r == Report([MissingReturnValueMessage(line, current.value)], []))
                  && (value.Some? && !value.value.Literal? ==> r == Report([], []))
                  && (IsLiteral(value) ==>
                        (r.errors != [] <==> !Compatible(table[current.value].ReturnType(), LiteralType(value.value))))
                  && (IsLiteral(value) && r.errors != [] ==>
                        r.errors == [ReturnMismatchMessage(line, current.value, table[current.value].ReturnType(),
                                                           InferType(value.value.lit))])
                  && (IsLiteral(value) ==>
                        (r.warnings != [] <==>
                           table[current.value].ReturnType() == Some("bool") && LiteralType(value.value) == Some("int"))))
  {
  }

  // ---------------------------------------------------------------------
  // The second pass
  // ---------------------------------------------------------------------

  /** What a statement without sub-statements reports: declarations,
      assignments, calls and returns are checked; other nodes report
      nothing. */
  function StatementReport(table: map<string, Entry>, current: Option<string>, node: Node): Report {
    match node
    case Declaration(_, _, _, _) => Report(DeclarationErrors(node), [])
    case Assignment(_, _, _) => Report(AssignmentErrors(table, node), [])
    case FunctionCall(_, _, _) => Report(CallErrors(table, node), [])
    case Return(value, line) => ReturnReport(table, current, value, line)
    case _ => Report([], [])
  }

  /** The state with a report's errors and warnings appended. */
  function Append(st: AnalyzerState, r: Report): AnalyzerState {
    st.(errors := st.errors + r.errors, warnings := st.warnings + r.warnings)
  }

  /** `_analyze_statement` for one node. */
  function AnalyzeNode(st: AnalyzerState, node: Node): AnalyzerState
    decreases node, 2
  {
    match node
    case FunctionDef(_, _, _, _, _) => AnalyzeFunctionBody(st, node)
    case If(_, _, _, _) => AnalyzeBranches(st, node)
    case While(_, _, _) => AnalyzeLoop(st, node)
    case Block(statements, _) => AnalyzeSeq(st, statements)
    case _ => Append(st, StatementReport(st.table, st.current, node))
  }

  /** `_analyze_function_def`: the body is analysed as the current
      function, and the previous one is restored afterwards. */
  function AnalyzeFunctionBody(st: AnalyzerState, node: Node): AnalyzerState
    requires node.FunctionDef?
    decreases node, 1
  {
    var inside := st.(current := Some(node.name));
    var after := if node.body.Some? then AnalyzeNode(inside, node.body.value) else inside;
    after.(current := st.current)
  }

  /** `_analyze_if_statement`: the condition check, then both blocks. */
  function AnalyzeBranches(st: AnalyzerState, node: Node): AnalyzerState
    requires node.If?
    decreases node, 1
  {
    var checked := Append(st, Report([], ConditionWarnings(node.condition, IfWarning(node.line))));
    var afterThen := AnalyzeNode(checked, node.thenBlock);
    if node.elseBlock.Some? then AnalyzeNode(afterThen, node.elseBlock.value) else afterThen
  }

  /** `_analyze_while_statement`: the condition check, then the body. */
  function AnalyzeLoop(st: AnalyzerState, node: Node): AnalyzerState
    requires node.While?
    decreases node, 1
  {
    var checked := Append(st, Report([], ConditionWarnings(node.condition, WhileWarning(node.line))));
    if node.body.Some? then AnalyzeNode(checked, node.body.value) else checked
  }

  /** The second pass over a statement list, in order. */
  function AnalyzeSeq(st: AnalyzerState, stmts: seq<Node>): AnalyzerState
    decreases stmts, 0
  {
    if stmts == [] then st
    else AnalyzeNode(AnalyzeSeq(st, stmts[..|stmts| - 1]), stmts[|stmts| - 1])
  }

  /** `b` is `a` with errors and warnings appended, and nothing else changed. */
  predicate Extends(a: AnalyzerState, b: AnalyzerState) {
    b.table == a.table && b.current == a.current && a.errors <= b.errors && a.warnings <= b.warnings
  }

  lemma ExtendsTransitive(a: AnalyzerState, b: AnalyzerState, c: AnalyzerState)
    requires Extends(a, b) && Extends(b, c)
    ensures Extends(a, c)
  {
  }

  lemma AppendExtends(st: AnalyzerState, r: Report)
    ensures Extends(st, Append(st, r))
  {
  }

  /** The second pass never changes the symbol table, leaves the current
      function as it found it, and only appends errors and warnings. */
  lemma {:induction false} AnalyzeNodeFrame(st: AnalyzerState, node: Node)
    ensures Extends(st, AnalyzeNode(st, node))
    decreases node, 2
  {
    match node
    case FunctionDef(_, _, _, _, _) => FunctionBodyFrame(st, node);
    case If(_, _, _, _) => BranchesFrame(st, node);
    case While(_, _, _) => LoopFrame(st, node);
    case Block(statements, _) => AnalyzeSeqFrame(st, statements);
    case _ => AppendExtends(st, StatementReport(st.table, st.current, node));
  }

  lemma {:induction false} FunctionBodyFrame(st: AnalyzerState, node: Node)
    requires node.FunctionDef?
    ensures Extends(st, AnalyzeFunctionBody(st, node))
    decreases node, 1
  {
    if node.body.Some? {
      AnalyzeNodeFrame(st.(current := Some(node.name)), node.body.value);
    }
  }

  lemma {:induction false} BranchesFrame(st: AnalyzerState, node: Node)
    requires node.If?
    ensures Extends(st, AnalyzeBranches(st, node))
    decreases node, 1
  {
    var checked := Append(st, Report([], ConditionWarnings(node.condition, IfWarning(node.line))));
    var afterThen := AnalyzeNode(checked, node.thenBlock);
    AppendExtends(st, Report([], ConditionWarnings(node.condition, IfWarning(node.line))));
    AnalyzeNodeFrame(checked, node.thenBlock);
    ExtendsTransitive(st, checked, afterThen);
    if node.elseBlock.Some? {
      AnalyzeNodeFrame(afterThen, node.elseBlock.value);
      ExtendsTransitive(st, afterThen, AnalyzeNode(afterThen, node.elseBlock.value));
    }
  }

  lemma {:induction false} LoopFrame(st: AnalyzerState, node: Node)
    requires node.While?
    ensures Extends(st, AnalyzeLoop(st, node))
    decreases node, 1
  {
    var checked := Append(st, Report([], ConditionWarnings(node.condition, WhileWarning(node.line))));
    AppendExtends(st, Report([], ConditionWarnings(node.condition, WhileWarning(node.line))));
    if node.body.Some? {
      AnalyzeNodeFrame(checked, node.body.value);
      ExtendsTransitive(st, checked, AnalyzeNode(checked, node.body.value));
    }
  }

  lemma {:induction false} AnalyzeSeqFrame(st: AnalyzerState, stmts: seq<Node>)
    ensures Extends(st, AnalyzeSeq(st, stmts))
    decreases stmts, 0
  {
    if stmts != [] {
      var mid := AnalyzeSeq(st, stmts[..|stmts| - 1]);
      AnalyzeSeqFrame(st, stmts[..|stmts| - 1]);
      AnalyzeNodeFrame(mid, stmts[|stmts| - 1]);
      ExtendsTransitive(st, mid, AnalyzeNode(mid, stmts[|stmts| - 1]));
    }
  }

  /** A boolean literal is inferred as an int, so `if (True)` warns that its
      condition is not boolean, and returning True from a bool function
      gives a warning and a mismatch error. */
  lemma BoolLiteralIsInt(st: AnalyzerState, b: bool, line: nat, thenBlock: Node, f: string)
    ensures InferType(LitBool(b)) == "int"
    ensures st.warnings + [IfWarning(line)] <= AnalyzeNode(st, If(Literal(LitBool(b), line), thenBlock, None, line)).warnings
    ensures f != "" && f in st.table && st.table[f].ReturnType() == Some("bool") ==>
              ReturnReport(st.table, Some(f), Some(Literal(LitBool(b), line)), line)
                == Report([ReturnMismatchMessage(line, f, Some("bool"), "int")], [BoolIntWarning(line, f)])
  {
    var node := If(Literal(LitBool(b), line), thenBlock, None, line);
    var checked := Append(st, Report([], [IfWarning(line)]));
    assert AnalyzeNode(st, node) == AnalyzeBranches(st, node);
    AnalyzeNodeFrame(checked, thenBlock);
  }

  // ---------------------------------------------------------------------
  // analyze
  // ---------------------------------------------------------------------

  /** The state `analyze` leaves: a missing tree changes nothing, a program
      runs both passes, any other root is one error. */
  function AnalyzeState(st: AnalyzerState, ast: Option<Node>): AnalyzerState {
    if ast.None? then st
    else if ast.value.Program? then AnalyzeSeq(RegisterAll(st, ast.value.statements), ast.value.statements)
    else st.(errors := st.errors + ["Root node is not a program node"])
  }

  /** `analyze`'s result tuple. */
  datatype Analysis = Analysis(success: bool, errors: seq<string>, warnings: seq<string>, table: map<string, Entry>)

  function AnalyzeResult(st: AnalyzerState, ast: Option<Node>): Analysis {
    if ast.None? then Analysis(false, ["No AST to analyze"], [], map[])
    else
      var after := AnalyzeState(st, ast);
      Analysis(|after.errors| == 0, after.errors, after.warnings, after.table)
  }

  /** How a fresh analyzer ends: a missing tree and a non-program root give
      exactly one error and nothing else; for a program, success means no
      error, and the table is the first pass's table. */
  lemma AnalyzeFromFresh(ast: Option<Node>)
    ensures ast.None? ==> AnalyzeResult(Initial, ast) == Analysis(false, ["No AST to analyze"], [], map[])
    ensures ast.Some? && !ast.value.Program? ==>
              AnalyzeResult(Initial, ast) == Analysis(false, ["Root node is not a program node"], [], map[])
    ensures AnalyzeResult(Initial, ast).success <==> AnalyzeResult(Initial, ast).errors == []
    ensures ast.Some? && ast.value.Program? ==>
              AnalyzeResult(Initial, ast).table == RegisterAll(Initial, ast.value.statements).table
  {
    if ast.Some? && ast.value.Program? {
      AnalyzeSeqFrame(RegisterAll(Initial, ast.value.statements), ast.value.statements);
    }
  }

  // ---------------------------------------------------------------------
  // The analyzer object
  // ---------------------------------------------------------------------

  class SemanticAnalyzer {
    var errors: seq<string>
    var warnings: seq<string>
    var symbolTable: map<string, Entry>
    var currentFunction: Option<string>

    ghost function State(): AnalyzerState
      reads this
    {
      AnalyzerState(errors, warnings, symbolTable, currentFunction)
    }

    constructor()
      ensures State() == Initial
    {
      errors := [];
      warnings := [];
      symbolTable := map[];
      currentFunction := None;
    }

    /** `analyze(ast)`. */
    method Analyze(ast: Option<Node>) returns (success: bool, errs: seq<string>, warns: seq<string>, table: map<string, Entry>)
      modifies this
      ensures Analysis(success, errs, warns, table) == AnalyzeResult(old(State()), ast)
      ensures State() == AnalyzeState(old(State()), ast)
    {
      if ast.None? {
        return false, ["No AST to analyze"], [], map[];
      }
      if ast.value.Program? {
        AnalyzeProgram(ast.value);
      } else {
        errors := errors + ["Root node is not a program node"];
      }
      success := |errors| == 0;
      return success, errors, warnings, symbolTable;
    }

    /** `_analyze_program`: register, then analyse, every statement. */
    method AnalyzeProgram(node: Node)
      requires node.Program?
      modifies this
      ensures State() == AnalyzeSeq(RegisterAll(old(State()), node.statements), node.statements)
    {
      var stmts := node.statements;
      var i := 0;
      while i < |stmts|
        invariant 0 <= i <= |stmts|
        invariant State() == RegisterAll(old(State()), stmts[..i])
      {
        assert stmts[..i + 1][..i] == stmts[..i];
        var stmt := stmts[i];
        if stmt.FunctionDef? {
          RegisterFunction(stmt);
        } else if stmt.Declaration? {
          RegisterVariable(stmt);
        }
        i := i + 1;
      }
      assert stmts[..|stmts|] == stmts;
      ghost var registered := State();
      i := 0;
      while i < |stmts|
        invariant 0 <= i <= |stmts|
        invariant State() == AnalyzeSeq(registered, stmts[..i])
      {
        assert stmts[..i + 1][..i] == stmts[..i];
        AnalyzeStatement(stmts[i]);
        i := i + 1;
      }
      assert stmts[..|stmts|] == stmts;
    }

    /** `_register_function`. */
    method RegisterFunction(node: Node)
      requires node.FunctionDef?
      modifies this
      ensures State() == Register(old(State()), node)
    {
      if node.name in symbolTable {
        errors := errors + [DuplicateFunctionMessage(node.line, node.name)];
      } else {
        symbolTable := symbolTable[node.name := FunctionEntry(node.returnType, node.params, node.line)];
      }
    }

    /** `_register_variable`. */
    method RegisterVariable(node: Node)
      requires node.Declaration?
      modifies this
      ensures State() == Register(old(State()), node)
    {
      if node.name in symbolTable {
        errors := errors + [DuplicateVariableMessage(node.line, node.name)];
      } else {
        symbolTable := symbolTable[node.name := VariableEntry(node.varType, node.line)];
      }
    }

    /** `_analyze_statement`: dispatch on the node kind; a block analyses
        its statements in order. */
    method AnalyzeStatement(node: Node)
      modifies this
      ensures State() == AnalyzeNode(old(State()), node)
      decreases node, 2
    {
      match node
      case Declaration(_, _, _, _) =>
        errors := errors + DeclarationErrors(node);
      case Assignment(_, _, _) =>
        AnalyzeAssignment(node);
      case FunctionDef(_, _, _, _, _) =>
        AnalyzeFunctionDef(node);
      case FunctionCall(_, _, _) =>
        AnalyzeFunctionCall(node);
      case If(_, _, _, _) =>
        AnalyzeIf(node);
      case While(_, _, _) =>
        AnalyzeWhile(node);
      case Return(_, _) =>
        AnalyzeReturn(node);
      case Block(stmts, _) =>
        ghost var start := State();
        var i := 0;
        while i < |stmts|
          invariant 0 <= i <= |stmts|
          invariant State() == AnalyzeSeq(start, stmts[..i])
        {
          assert stmts[..i + 1][..i] == stmts[..i];
          AnalyzeStatement(stmts[i]);
          i := i + 1;
        }
        assert stmts[..|stmts|] == stmts;
      case _ =>
    }

    /** `_analyze_assignment`. */
    method AnalyzeAssignment(node: Node)
      requires node.Assignment?
      modifies this
      ensures State() == AnalyzeNode(old(State()), node)
    {
      if node.target !in symbolTable {
        errors := errors + [UndeclaredMessage(node.line, node.target)];
        return;
      }
      var info := symbolTable[node.target];
      var value := node.value;
      if value.Some? && value.value.Literal? {
        var valueType := InferType(value.value.lit);
        if !Compatible(info.VarType(), Some(valueType)) {
          errors := errors + [AssignmentMismatchMessage(node.line, node.target, info.VarType(), valueType)];
        }
      }
    }

    /** `_analyze_function_def`: analyse the body as the current function,
        then restore the previous one. */
    method AnalyzeFunctionDef(node: Node)
      requires node.FunctionDef?
      modifies this
      ensures State() == AnalyzeFunctionBody(old(State()), node)
      decreases node, 1
    {
      var previous := currentFunction;
      currentFunction := Some(node.name);
      if node.body.Some? {
        AnalyzeStatement(node.body.value);
      }
      currentFunction := previous;
    }

    /** `_analyze_function_call`. */
    method AnalyzeFunctionCall(node: Node)
      requires node.FunctionCall?
      modifies this
      ensures State() == AnalyzeNode(old(State()), node)
    {
      if node.name !in symbolTable && node.name !in Builtins {
        errors := errors + [UndefinedFunctionMessage(node.line, node.name)];
        return;
      }
      if node.name in symbolTable && symbolTable[node.name].FunctionEntry? {
        var expectedParams := |symbolTable[node.name].params|;
        var actualParams := |node.arguments|;
        if expectedParams != actualParams {
          errors := errors + [ArgumentCountMessage(node.line, node.name, actualParams, expectedParams)];
        }
      }
    }

    /** `_analyze_if_statement`: warn about a non-boolean literal
        condition, then analyse both blocks. */
    method AnalyzeIf(node: Node)
      requires node.If?
      modifies this
      ensures State() == AnalyzeBranches(old(State()), node)
      decreases node, 1
    {
      if node.condition.Literal? {
        var conditionType := InferType(node.condition.lit);
        if !Compatible(Some("bool"), Some(conditionType)) {
          warnings := warnings + [IfWarning(node.line)];
        }
      }
      assert State() == Append(old(State()), Report([], ConditionWarnings(node.condition, IfWarning(node.line))));
      AnalyzeStatement(node.thenBlock);
      if node.elseBlock.Some? {
        AnalyzeStatement(node.elseBlock.value);
      }
    }

    /** `_analyze_while_statement`. */
    method AnalyzeWhile(node: Node)
      requires node.While?
      modifies this
      ensures State() == AnalyzeLoop(old(State()), node)
      decreases node, 1
    {
      if node.condition.Literal? {
        var conditionType := InferType(node.condition.lit);
        if !Compatible(Some("bool"), Some(conditionType)) {
          warnings := warnings + [WhileWarning(node.line)];
        }
      }
      assert State() == Append(old(State()), Report([], ConditionWarnings(node.condition, WhileWarning(node.line))));
      if node.body.Some? {
        AnalyzeStatement(node.body.value);
      }
    }

    /** `_analyze_return_statement`. */
    method AnalyzeReturn(node: Node)
      requires node.Return?
      modifies this
      ensures State() == AnalyzeNode(old(State()), node)
    {
      if currentFunction.None? || currentFunction.value == "" {
        errors := errors + [ReturnOutsideMessage(node.line)];
        return;
      }
      var f := currentFunction.value;
      if f in symbolTable {
        var expectedType := symbolTable[f].ReturnType();
        var value := node.value;
        if expectedType == Some("void") {
          if value.Some? {
            errors := errors + [VoidReturnsValueMessage(node.line, f)];
          }
          return;
        }
        if value.None? {
          errors := errors + [MissingReturnValueMessage(node.line, f)];
        } else if value.value.Literal? {
          var valueType := InferType(value.value.lit);
          if expectedType == Some("bool") && valueType == "int" {
            warnings := warnings + [BoolIntWarning(node.line, f)];
          }
          if !Compatible(expectedType, Some(valueType)) {
            errors := errors + [ReturnMismatchMessage(node.line, f, expectedType, valueType)];
          }
        }
      }
    }
  }

  // ---------------------------------------------------------------------
  // analyze_semantics
  // ---------------------------------------------------------------------

  /** The names the output module `utils/output_handler.py` defines. */
  const OutputHandlerNames: set<string> := {"write_lexical_analysis", "write_syntax_analysis", "write_ast"}

  /** The writer `analyze_semantics` imports after the analysis. */
  const SemanticWriter := "write_semantic_analysis"

  /** How `analyze_semantics` ends: with its result tuple, or with the
      ImportError of an import that names something the module lacks. */
  datatype SemanticsEnd = Completed(result: Analysis) | ImportFailed(name: string)

  /** `from utils.output_handler import name`, then writing and returning
      `result`: an import of a name the module does not define raises, and
      nothing is returned. */
  function ImportWriter(name: string, result: Analysis): (e: SemanticsEnd)
    ensures e.ImportFailed? <==> name !in OutputHandlerNames
    ensures e.Completed? ==> e.result == result
    ensures e.ImportFailed? ==> e.name == name
  {
    if name in OutputHandlerNames then Completed(result) else ImportFailed(name)
  }

  /** `analyze_semantics(ast)`: a fresh analyzer runs both passes, then the
      import of the semantic writer fails, so the call always raises and
      never returns the analyzer's result. */
  method AnalyzeSemantics(ast: Option<Node>) returns (outcome: SemanticsEnd)
    ensures outcome == ImportWriter(SemanticWriter, AnalyzeResult(Initial, ast))
    ensures outcome == ImportFailed(SemanticWriter)
  {
    var analyzer := new SemanticAnalyzer();
    var success, errs, warns, table := analyzer.Analyze(ast);
    outcome := ImportWriter(SemanticWriter, Analysis(success, errs, warns, table));
  }

  /** `analyze_semantics` as evidently intended, with a writer that exists:
      the result of a fresh analyzer, whose properties `AnalyzeFromFresh`
      states. */
  method AnalyzeSemanticsIntended(ast: Option<Node>) returns (result: Analysis)
    ensures result == AnalyzeResult(Initial, ast)
    ensures result.success <==> result.errors == []
  {
    var analyzer := new SemanticAnalyzer();
    var success, errs, warns, table := analyzer.Analyze(ast);
    result := Analysis(success, errs, warns, table);
    AnalyzeFromFresh(ast);
  }
}
