/**
 * The syntax tree. The source builds every node as a dictionary with
 * `create_node`; here each node kind is one constructor with a fixed field
 * set. Keys that the analyzer tests for presence (`else_block`, `body`,
 * `value`) are `Option`s. `program` and `block` nodes are built without a
 * line, so theirs is create_node's default 0.
 */
module Ast {
  import opened Wrappers
  import opened Tokens

  datatype Node =
    | Program(statements: seq<Node>, line: nat)
    | Declaration(varType: string, name: string, value: Option<Node>, line: nat)
    | Assignment(target: string, value: Option<Node>, line: nat)
    | FunctionDef(returnType: string, name: string, params: seq<Node>, body: Option<Node>, line: nat)
    | Parameter(paramType: string, name: string, line: nat)
    | Block(statements: seq<Node>, line: nat)
    | FunctionCall(name: string, arguments: seq<Node>, line: nat)
    | If(condition: Node, thenBlock: Node, elseBlock: Option<Node>, line: nat)
    | While(condition: Node, body: Option<Node>, line: nat)
    | Return(value: Option<Node>, line: nat)
    | BinaryOp(op: string, left: Node, right: Node, line: nat)
    | Literal(lit: Value, line: nat)
    | Identifier(name: string, line: nat)
  {
    /** The node's `'type'` tag. */
    function Kind(): string {
      match this
      case Program(_, _) => "program"
      case Declaration(_, _, _, _) => "declaration"
      case Assignment(_, _, _) => "assignment"
      case FunctionDef(_, _, _, _, _) => "function_def"
      case Parameter(_, _, _) => "parameter"
      case Block(_, _) => "block"
      case FunctionCall(_, _, _) => "function_call"
      case If(_, _, _, _) => "if"
      case While(_, _, _) => "while"
      case Return(_, _) => "return"
      case BinaryOp(_, _, _, _) => "binary_op"
      case Literal(_, _) => "literal"
      case Identifier(_, _) => "identifier"
    }
  }

  /** A dictionary value as `create_node` sees it: a tag string, a number, or
      anything else the caller passes. */
  datatype Attr<V> = Tag(s: string) | Num(n: int) | Other(v: V)

  /** `create_node(type, **kwargs)`: the tag under "type", "line" and "column"
      defaulting to 0, and every keyword copied over. Python rejects a
      keyword named `type` (it is the positional parameter). */
  function CreateNode<V>(kind: string, kwargs: map<string, Attr<V>>): (node: map<string, Attr<V>>)
    requires "type" !in kwargs
    ensures node.Keys == kwargs.Keys + {"type", "line", "column"}
    ensures node["type"] == Tag(kind)
    ensures "line" !in kwargs ==> node["line"] == Num(0)
    ensures "column" !in kwargs ==> node["column"] == Num(0)
    ensures forall k :: k in kwargs ==> node[k] == kwargs[k]
  {
    var base := map["type" := Tag(kind),
                     "line" := if "line" in kwargs then kwargs["line"] else Num(0),
                     "column" := if "column" in kwargs then kwargs["column"] else Num(0)];
    base + kwargs
  }
}
