/**
 * The grammar's reduction actions. Each action is a pure function from the
 * values of a production's right-hand side to the value of its left-hand
 * side: a node or a list. A right-hand-side token is passed as the token
 * itself, so the node's line is visibly the line of that token (PLY's
 * `p.lineno(k)`).
 */
module GrammarRules {
  import opened Wrappers
  import opened Tokens
  import opened Ast

  // ---------------------------------------------------------------------
  // Program, statement lists, blocks
  // ---------------------------------------------------------------------

  /** program : statement_list */
  function ProgramNode(statements: seq<Node>): (r: Node)
    ensures r.Program? && r.statements == statements && r.line == 0
  {
    Program(if statements != [] then statements else [], 0)
  }

  /** statement_list : statement */
  function StatementListFirst(stmt: Node): (r: seq<Node>)
    ensures r == [stmt]
  {
    [stmt]
  }

  /** The left-recursive step of every list rule: `statement_list :
      statement_list statement`, and `list : list COMMA item` for parameter
      and argument lists. */
  function ListAppend(list: seq<Node>, item: Node): (r: seq<Node>)
    ensures |r| == |list| + 1 && r[..|list|] == list && r[|list|] == item
  {
    list + [item]
  }

  /** The value of statement_list after PLY has reduced the statements `ss`
      one by one: the first with the single-statement rule, each later one
      with the left-recursive rule. */
  function StatementListReduced(ss: seq<Node>): seq<Node>
    requires |ss| >= 1
  {
    if |ss| == 1 then StatementListFirst(ss[0])
    else ListAppend(StatementListReduced(ss[..|ss| - 1]), ss[|ss| - 1])
  }

  /** Left-recursive accumulation keeps the statements in source order. */
  lemma {:induction false} StatementListInSourceOrder(ss: seq<Node>)
    requires |ss| >= 1
    ensures StatementListReduced(ss) == ss
  {
    if |ss| > 1 {
      StatementListInSourceOrder(ss[..|ss| - 1]);
      assert ss[..|ss| - 1] + [ss[|ss| - 1]] == ss;
    }
  }

  /** statement_list_opt : statement_list | empty  (`empty` yields None) */
  function StatementListOpt(list: Option<seq<Node>>): (r: seq<Node>)
    ensures list.None? ==> r == []
    ensures list.Some? ==> r == list.value
  {
    if list.Some? then list.value else []
  }

  /** block_stmt : LBRACKET statement_list_opt RBRACKET */
  function BlockStmt(statements: seq<Node>): (r: Node)
    ensures r.Block? && r.statements == statements && r.line == 0
  {
    Block(statements, 0)
  }

  // ---------------------------------------------------------------------
  // Comma-separated lists: param_list and arg_list share one action
  //   list : list COMMA item | item | empty
  // ---------------------------------------------------------------------

  /** list : item | empty   (the two one-symbol alternatives) */
  function CommaListBase(x: Option<Node>): (r: seq<Node>)
    ensures x.None? ==> r == []
    ensures x.Some? ==> r == [x.value]
  {
    if x.None? then [] else [x.value]
  }

  /** A derivation of a left-recursive comma list. */
  datatype ListTree = EmptyList | Single(item: Node) | Extend(init: ListTree, item: Node)

  /** The symbols a derivation covers in the source, left to right. */
  datatype ListSym = Item(node: Node) | Comma

  function Yield(t: ListTree): seq<ListSym>
  {
    match t
    case EmptyList => []
    case Single(x) => [Item(x)]
    case Extend(init, x) => Yield(init) + [Comma, Item(x)]
  }

  /** The items among some symbols, in order. */
  function Items(ys: seq<ListSym>): seq<Node>
  {
    if ys == [] then []
    else (if ys[0].Item? then [ys[0].node] else []) + Items(ys[1..])
  }

  lemma ItemsCons(y: ListSym, ys: seq<ListSym>)
    ensures Items([y] + ys) == (if y.Item? then [y.node] else []) + Items(ys)
  {
    assert ([y] + ys)[1..] == ys;
  }

  lemma {:induction false} ItemsAppend(a: seq<ListSym>, b: seq<ListSym>)
    ensures Items(a + b) == Items(a) + Items(b)
  {
    if a == [] {
      assert a + b == b;
    } else {
      assert a + b == [a[0]] + (a[1..] + b);
      assert a == [a[0]] + a[1..];
      ItemsCons(a[0], a[1..] + b);
      ItemsCons(a[0], a[1..]);
      ItemsAppend(a[1..], b);
    }
  }

  /** The value the actions compute bottom-up over a derivation. */
  function CommaListValue(t: ListTree): seq<Node>
  {
    match t
    case EmptyList => CommaListBase(None)
    case Single(x) => CommaListBase(Some(x))
    case Extend(init, x) => ListAppend(CommaListValue(init), x)
  }

  /** The list a parameter or argument list builds holds exactly the items
      written, in the order written. */
  lemma {:induction false} CommaListValueIsItems(t: ListTree)
    ensures CommaListValue(t) == Items(Yield(t))
  {
    match t
    case EmptyList =>
    case Single(x) =>
      assert Items([Item(x)]) == [x] + Items([]);
    case Extend(init, x) =>
      CommaListValueIsItems(init);
      ItemsAppend(Yield(init), [Comma, Item(x)]);
      assert Items([Comma, Item(x)]) == Items([Item(x)]);
      assert Items([Item(x)]) == [x] + Items([]);
  }

  /** Because `empty` is an alternative of the list itself and not only of
      the whole list, a list may begin with a comma: `f(, a)` derives the
      same one-element list as `f(a)`. */
  lemma LeadingCommaAccepted(x: Node)
    ensures Yield(Extend(EmptyList, x)) == [Comma, Item(x)]
    ensures CommaListValue(Extend(EmptyList, x)) == [x]
  {
  }

  /** param : type_specifier IDENTIFIER */
  function Param(typeTok: Token, nameTok: Token): (r: Node)
    ensures r.Parameter? && r.line == typeTok.line
    ensures r.paramType == ValueText(typeTok.value) && r.name == ValueText(nameTok.value)
  {
    Parameter(ValueText(typeTok.value), ValueText(nameTok.value), typeTok.line)
  }

  // ---------------------------------------------------------------------
  // Statements
  // ---------------------------------------------------------------------

  /** declaration_stmt : type_specifier IDENTIFIER EQUALS expression EOL */
  function DeclarationStmt(typeTok: Token, nameTok: Token, value: Node): (r: Node)
    ensures r.Declaration? && r.line == typeTok.line && r.value == Some(value)
    ensures r.varType == ValueText(typeTok.value) && r.name == ValueText(nameTok.value)
  {
    Declaration(ValueText(typeTok.value), ValueText(nameTok.value), Some(value), typeTok.line)
  }

  /** assignment_stmt : IDENTIFIER EQUALS expression EOL */
  function AssignmentStmt(targetTok: Token, value: Node): (r: Node)
    ensures r.Assignment? && r.line == targetTok.line && r.value == Some(value)
    ensures r.target == ValueText(targetTok.value)
  {
    Assignment(ValueText(targetTok.value), Some(value), targetTok.line)
  }

  /** function_def_stmt : FUNCTION type_specifier IDENTIFIER LPAREN param_list RPAREN block_stmt */
  function FunctionDefStmt(functionTok: Token, typeTok: Token, nameTok: Token,
                           params: seq<Node>, body: Node): (r: Node)
    ensures r.FunctionDef? && r.line == functionTok.line && r.body == Some(body)
    ensures r.returnType == ValueText(typeTok.value) && r.name == ValueText(nameTok.value)
    ensures r.params == params
  {
    FunctionDef(ValueText(typeTok.value), ValueText(nameTok.value), params, Some(body), functionTok.line)
  }

  /** function_call : callable LPAREN arg_list RPAREN */
  function FunctionCallExpr(calleeTok: Token, arguments: seq<Node>): (r: Node)
    ensures r.FunctionCall? && r.line == calleeTok.line
    ensures r.name == ValueText(calleeTok.value) && r.arguments == arguments
  {
    FunctionCall(ValueText(calleeTok.value), arguments, calleeTok.line)
  }

  /** if_stmt : IF LPAREN expression RPAREN block_stmt [ELSE block_stmt].
      Without ELSE the node has no else block at all. */
  function IfStmt(ifTok: Token, condition: Node, thenBlock: Node, elseBlock: Option<Node>): (r: Node)
    ensures r.If? && r.line == ifTok.line
    ensures r.condition == condition && r.thenBlock == thenBlock
    ensures r.elseBlock.Some? <==> elseBlock.Some?
    ensures elseBlock.Some? ==> r.elseBlock == elseBlock
  {
    match elseBlock
    case None => If(condition, thenBlock, None, ifTok.line)
    case Some(b) => If(condition, thenBlock, Some(b), ifTok.line)
  }

  /** while_stmt : WHILE LPAREN expression RPAREN block_stmt */
  function WhileStmt(whileTok: Token, condition: Node, body: Node): (r: Node)
    ensures r.While? && r.line == whileTok.line
    ensures r.condition == condition && r.body == Some(body)
  {
    While(condition, Some(body), whileTok.line)
  }

  /** return_stmt : RETURN expression EOL */
  function ReturnStmt(returnTok: Token, value: Node): (r: Node)
    ensures r.Return? && r.line == returnTok.line && r.value == Some(value)
  {
    Return(Some(value), returnTok.line)
  }

  // ---------------------------------------------------------------------
  // Expressions
  // ---------------------------------------------------------------------

  /** expression : expression OP expression. The node takes the line of the
      operator, not of the left operand. */
  function BinaryOpExpr(left: Node, opTok: Token, right: Node): (r: Node)
    ensures r.BinaryOp? && r.line == opTok.line
    ensures r.op == ValueText(opTok.value) && r.left == left && r.right == right
  {
    BinaryOp(ValueText(opTok.value), left, right, opTok.line)
  }

  /** expression : LPAREN expression RPAREN. There is no parenthesis node:
      the inner expression is the value. */
  function ParenExpr(inner: Node): (r: Node)
    ensures r == inner
  {
    inner
  }

  /** What an atomic expression was reduced from: one token, or a
      function_call already reduced. */
  datatype AtomRhs = TokenAtom(tok: Token) | CallAtom(call: Node)

  /** expression : NUMBER | FLOAT_NUM | STRING_LITERAL | BOOLEAN_VAL
                 | DATE_VAL | TIME_VAL | IDENTIFIER | function_call */
  function AtomExpr(rhs: AtomRhs): (r: Node)
    requires rhs.TokenAtom? ==> rhs.tok.kind in OperandKinds
    ensures rhs.TokenAtom? && rhs.tok.kind in LiteralKinds ==>
              r == Literal(rhs.tok.value, rhs.tok.line)
    ensures rhs.TokenAtom? && rhs.tok.kind == IDENTIFIER ==>
              r == Identifier(ValueText(rhs.tok.value), rhs.tok.line)
    ensures rhs.CallAtom? ==> r == rhs.call
  {
    match rhs
    case TokenAtom(tok) =>
      if tok.kind in LiteralKinds then Literal(tok.value, tok.line)
      else Identifier(ValueText(tok.value), tok.line)
    case CallAtom(call) => call
  }
}
