/**
 * Tokens as the lexer hands them to the parser. Tokenization itself is not
 * modelled: a token is a kind tag (PLY's `type`), a value and a 1-based line.
 */
module Tokens {
  import Text

  /** A token value, which is also the value a `literal` node holds.
      The lexer turns NUMBER into a Python int, FLOAT_NUM into a float,
      BOOLEAN_VAL into a Python bool and leaves every other value a string.
      A float is kept as the text Python prints for it (see FloatValue); no
      arithmetic is done. */
  datatype Value =
    | LitInt(i: int)
    | LitFloat(text: string)
    | LitBool(b: bool)
    | LitStr(s: string)

  /** The lexer's token list: the punctuation and literal kinds followed by
      the reserved words (lexer.py's `tokens` and `reserved`). */
  datatype Kind =
    | NUMBER | FLOAT_NUM | STRING_LITERAL | BOOLEAN_VAL | DATE_VAL | TIME_VAL
    | IDENTIFIER | EQUALS | EQ | NEQ | LT | GT | LE | GE
    | PLUS | MINUS | TIMES | DIVIDE | LPAREN | RPAREN | LBRACKET | RBRACKET
    | COMMA | EOL
    | BOOK | GEN | REG | DISPLAY
    | IF | WHILE | FOREACH | UNTIL | RETURN | BREAK | CONTINUE
    | ARRAY | DICTIONARY | MAP | SET
    | INT_TYPE | FLOAT_TYPE | STRING_TYPE | BOOL_TYPE | DATE_TYPE | TIME_TYPE
    | AND | OR | NOT | THEN | ELSE | FUNCTION | VOID

  datatype Token = Token(kind: Kind, value: Value, line: nat)

  /** The kind's name, as `p.type` prints it. */
  function KindName(k: Kind): (name: string)
    ensures |name| > 0
  {
    match k
    case NUMBER => "NUMBER"
    case FLOAT_NUM => "FLOAT_NUM"
    case STRING_LITERAL => "STRING_LITERAL"
    case BOOLEAN_VAL => "BOOLEAN_VAL"
    case DATE_VAL => "DATE_VAL"
    case TIME_VAL => "TIME_VAL"
    case IDENTIFIER => "IDENTIFIER"
    case EQUALS => "EQUALS"
    case EQ => "EQ"
    case NEQ => "NEQ"
    case LT => "LT"
    case GT => "GT"
    case LE => "LE"
    case GE => "GE"
    case PLUS => "PLUS"
    case MINUS => "MINUS"
    case TIMES => "TIMES"
    case DIVIDE => "DIVIDE"
    case LPAREN => "LPAREN"
    case RPAREN => "RPAREN"
    case LBRACKET => "LBRACKET"
    case RBRACKET => "RBRACKET"
    case COMMA => "COMMA"
    case EOL => "EOL"
    case BOOK => "BOOK"
    case GEN => "GEN"
    case REG => "REG"
    case DISPLAY => "DISPLAY"
    case IF => "IF"
    case WHILE => "WHILE"
    case FOREACH => "FOREACH"
    case UNTIL => "UNTIL"
    case RETURN => "RETURN"
    case BREAK => "BREAK"
    case CONTINUE => "CONTINUE"
    case ARRAY => "ARRAY"
    case DICTIONARY => "DICTIONARY"
    case MAP => "MAP"
    case SET => "SET"
    case INT_TYPE => "INT_TYPE"
    case FLOAT_TYPE => "FLOAT_TYPE"
    case STRING_TYPE => "STRING_TYPE"
    case BOOL_TYPE => "BOOL_TYPE"
    case DATE_TYPE => "DATE_TYPE"
    case TIME_TYPE => "TIME_TYPE"
    case AND => "AND"
    case OR => "OR"
    case NOT => "NOT"
    case THEN => "THEN"
    case ELSE => "ELSE"
    case FUNCTION => "FUNCTION"
    case VOID => "VOID"
  }


  /** Python's `str(value)`, as an f-string prints it. */
  function ValueText(v: Value): string
  {
    match v
    case LitInt(i) => Text.IntToString(i)
    case LitFloat(t) => t
    case LitBool(b) => if b then "True" else "False"
    case LitStr(s) => s
  }

  /** The lexer's BOOLEAN_VAL action: the matched text becomes a Python bool. */
  function BooleanValue(matched: string): (v: Value)
    ensures v.LitBool? && (v.b <==> matched == "True")
  {
    LitBool(matched == "True")
  }

  /** The lexer's FLOAT_NUM action for a lexeme `\d*\.\d+`, given as the
      digits before and after the point: the float that `float()` makes of it,
      as the text `str` prints for it. */
  function FloatValue(intDigits: string, fracDigits: string): (v: Value)
    requires Text.IsDigits(intDigits) && Text.IsDigits(fracDigits) && |fracDigits| >= 1
    ensures v.LitFloat?
  {
    LitFloat(Text.IntegerDigits(intDigits) + "." + Text.FractionDigits(fracDigits))
  }

  /** The digit normalisations the examples below rely on. */
  lemma DigitExamples()
    ensures Text.IntegerDigits("") == "0" && Text.IntegerDigits("1") == "1"
    ensures Text.IntegerDigits("007") == "7" && Text.IntegerDigits("10") == "10"
    ensures Text.FractionDigits("5") == "5" && Text.FractionDigits("50") == "5"
    ensures Text.FractionDigits("250") == "25" && Text.FractionDigits("000") == "0"
  {
    assert "007"[1..] == "07" && "07"[1..] == "7";
    assert "250"[..2] == "25";
    assert "000"[..2] == "00" && "00"[..1] == "0" && "0"[..0] == "";
    assert "50"[..1] == "5";
  }

  /** A missing integer part prints as 0, and leading zeros before the point
      and trailing zeros after it are dropped down to one digit. */
  lemma FloatValueExamples()
    ensures FloatValue("", "5") == LitFloat("0.5")
    ensures FloatValue("1", "50") == LitFloat("1.5")
    ensures FloatValue("007", "250") == LitFloat("7.25")
    ensures FloatValue("10", "000") == LitFloat("10.0")
  {
    DigitExamples();
    assert "0" + "." + "5" == "0.5";
    assert "1" + "." + "5" == "1.5";
    assert "7" + "." + "25" == "7.25";
    assert "10" + "." + "0" == "10.0";
  }

  /** The six kinds whose value becomes a `literal` node. */
  const LiteralKinds: set<Kind> := {NUMBER, FLOAT_NUM, STRING_LITERAL, BOOLEAN_VAL, DATE_VAL, TIME_VAL}

  /** The literal kinds and IDENTIFIER: the tokens that can end an operand. */
  const OperandKinds: set<Kind> := LiteralKinds + {IDENTIFIER}

  /** The six data-type keywords (VOID is not among them). */
  const DataTypeKinds: set<Kind> := {INT_TYPE, FLOAT_TYPE, STRING_TYPE, BOOL_TYPE, DATE_TYPE, TIME_TYPE}

  /** Every type specifier, VOID included. */
  const TypeKinds: set<Kind> := DataTypeKinds + {VOID}

  /** The names of the type specifiers, as the checks compare symbol values
      against them. */
  const TypeKindNames: seq<string> :=
    ["INT_TYPE", "FLOAT_TYPE", "STRING_TYPE", "BOOL_TYPE", "DATE_TYPE", "TIME_TYPE", "VOID"]

  /** The ten binary operators. */
  const OperatorKinds: set<Kind> := {PLUS, MINUS, TIMES, DIVIDE, LE, GE, LT, GT, EQ, NEQ}
}
