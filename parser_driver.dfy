/**
 * The parser driver: the token cursor PLY pulls tokens from, the operator
 * precedence table, and `parse`, which clears the syntax errors, runs the
 * LALR parser over a token list and turns an exception into one more error;
 * as written, the call of the output writer always raises, so that last
 * step happens on every run.
 * The LALR machine itself is not modelled: a run of it is given as the
 * parser errors it reported, in order, and how it ended.
 */
module ParserDriver {
  import opened Wrappers
  import opened Tokens
  import opened Ast
  import opened ParserState
  import ControlFlowErrors
  import SyntaxCheck

  // ---------------------------------------------------------------------
  // TokenStream
  // ---------------------------------------------------------------------

  /** What `k` successive calls of `token()` return from position `start`:
      the tokens from `start` on, then None for every call past the end. */
  function Yields(tokens: seq<Token>, start: nat, n: nat): (r: seq<Option<Token>>)
    ensures |r| == n
  {
    if n == 0 then []
    else Yields(tokens, start, n - 1) + [if start + (n - 1) < |tokens| then Some(tokens[start + (n - 1)]) else None]
  }

  /** From a fresh stream, the k-th call returns the k-th token while there is
      one, and None from then on. */
  lemma {:induction false} YieldsInOrder(tokens: seq<Token>, n: nat)
    ensures forall k :: 0 <= k < n ==> Yields(tokens, 0, n)[k] == (if k < |tokens| then Some(tokens[k]) else None)
  {
    if n > 0 {
      YieldsInOrder(tokens, n - 1);
      assert forall k :: 0 <= k < n - 1 ==> Yields(tokens, 0, n)[k] == Yields(tokens, 0, n - 1)[k];
    }
  }

  /** Once every token has been returned, a stream returns only None. */
  lemma {:induction false} YieldsNoneAfterEnd(tokens: seq<Token>, start: nat, n: nat)
    requires start >= |tokens|
    ensures forall k :: 0 <= k < n ==> Yields(tokens, start, n)[k] == None
  {
    if n > 0 {
      YieldsNoneAfterEnd(tokens, start, n - 1);
      assert forall k :: 0 <= k < n - 1 ==> Yields(tokens, start, n)[k] == Yields(tokens, start, n - 1)[k];
    }
  }

  /** The wrapper that hands a token list to PLY one token at a time and
      remembers the line of the last token handed out. */
  class TokenStream {
    const tokens: seq<Token>
    var index: nat
    var currentLine: nat

    ghost predicate Valid()
      reads this
    {
      index <= |tokens|
    }

    constructor(tokens: seq<Token>)
      ensures this.tokens == tokens && index == 0
      ensures currentLine == (if |tokens| > 0 then 1 else 0)
      ensures Valid()
    {
      this.tokens := tokens;
      index := 0;
      currentLine := if |tokens| > 0 then 1 else 0;
    }

    /** `token()`: the next token, which also becomes the current line's
        source; None, changing nothing, once the list is used up. */
    method NextToken() returns (tok: Option<Token>)
      requires Valid()
      modifies this
      ensures Valid()
      ensures old(index) < |tokens| ==>
                tok == Some(tokens[old(index)]) && index == old(index) + 1 && currentLine == tokens[old(index)].line
      ensures old(index) == |tokens| ==>
                tok == None && index == old(index) && currentLine == old(currentLine)
    {
      if index < |tokens| {
        tok := Some(tokens[index]);
        currentLine := tokens[index].line;
        index := index + 1;
      } else {
        tok := None;
      }
    }

    /** The `lineno` property: the line of the next token to be handed out,
        or the last known line once the list is used up. */
    function Lineno(): (line: nat)
      requires Valid()
      reads this
      ensures index < |tokens| ==> line == tokens[index].line
      ensures index == |tokens| ==> line == currentLine
    {
      if index < |tokens| then tokens[index].line else currentLine
    }

    /** `n` successive calls of `token()`, as the parser makes them. */
    method Pull(n: nat) returns (got: seq<Option<Token>>)
      requires Valid()
      modifies this
      ensures Valid()
      ensures got == Yields(tokens, old(index), n)
      ensures index == Min(old(index) + n, |tokens|)
    {
      got := [];
      var i := 0;
      while i < n
        invariant 0 <= i <= n && Valid()
        invariant got == Yields(tokens, old(index), i)
        invariant index == Min(old(index) + i, |tokens|)
      {
        var tok := NextToken();
        got := got + [tok];
        i := i + 1;
      }
    }
  }

  function Min(a: int, b: int): int {
    if a <= b then a else b
  }

  // ---------------------------------------------------------------------
  // Precedence
  // ---------------------------------------------------------------------

  datatype Assoc = NonAssoc | LeftAssoc

  /** The precedence table, lowest level first. */
  const Precedence: seq<(Assoc, seq<Kind>)> := [
    (NonAssoc, [LE, GE, LT, GT, EQ, NEQ]),
    (LeftAssoc, [PLUS, MINUS]),
    (LeftAssoc, [TIMES, DIVIDE])
  ]

  /** A token's precedence level: its row's position in the table, counted
      from 1 as PLY does; 0 for a token the table does not list. */
  function Level(k: Kind): (level: nat)
    ensures level <= |Precedence|
    ensures level > 0 ==> k in Precedence[level - 1].1
    ensures level == 0 ==> forall row :: 0 <= row < |Precedence| ==> k !in Precedence[row].1
  {
    if k in Precedence[2].1 then 3
    else if k in Precedence[1].1 then 2
    else if k in Precedence[0].1 then 1
    else 0
  }

  /** The associativity of a listed token. */
  function AssocOf(k: Kind): Assoc
    requires Level(k) > 0
  {
    Precedence[Level(k) - 1].0
  }

  datatype ConflictAction = Shift | Reduce | SyntaxError

  /** How PLY settles a shift/reduce conflict between a rule whose
      precedence is that of operator `rule` and the lookahead `next`: the
      higher level wins; on equal levels a left-associative operator
      reduces and a non-associative one is an error. */
  function Resolve(rule: Kind, next: Kind): ConflictAction
    requires Level(rule) > 0 && Level(next) > 0
  {
    if Level(next) > Level(rule) then Shift
    else if Level(next) < Level(rule) then Reduce
    else if AssocOf(rule) == LeftAssoc then Reduce
    else SyntaxError
  }

  /** Comparisons bind loosest, additive operators next, and multiplicative
      operators tightest; the binary operators are exactly the listed ones. */
  lemma PrecedenceLevels(k: Kind)
    ensures k in OperatorKinds <==> Level(k) > 0
    ensures k in {LE, GE, LT, GT, EQ, NEQ} <==> Level(k) == 1
    ensures k in {PLUS, MINUS} <==> Level(k) == 2
    ensures k in {TIMES, DIVIDE} <==> Level(k) == 3
  {
  }

  /** `a op1 b op2 c` groups as `a op1 (b op2 c)` exactly when `op2` binds
      tighter than `op1`; otherwise left operands group first, except that
      two comparisons are a syntax error. */
  lemma ResolveGrouping(rule: Kind, next: Kind)
    requires rule in OperatorKinds && next in OperatorKinds
    ensures Resolve(rule, next) == Shift <==> Level(next) > Level(rule)
    ensures Resolve(rule, next) == SyntaxError <==> Level(rule) == 1 && Level(next) == 1
    ensures Resolve(rule, next) == Reduce <==> Level(rule) >= Level(next) && Level(rule) > 1
  {
    PrecedenceLevels(rule);
    PrecedenceLevels(next);
  }

  // ---------------------------------------------------------------------
  // parse
  // ---------------------------------------------------------------------

  /** One call of the error handler during a run: the offending token and
      the parser state the handler reads, including how far the stream had
      got. */
  datatype ErrorEvent = ErrorEvent(p: Option<Token>, stack: seq<Sym>, lookahead: Option<Token>,
                                   streamIndex: nat, state: int)

  /** How a run of the LALR parser ended: with a result (None when error
      recovery gave up), or with an exception and its text. */
  datatype RunEnd = Returned(ast: Option<Node>) | Raised(message: string)

  datatype ParseRun = ParseRun(events: seq<ErrorEvent>, end: RunEnd)

  /** The stream the handler sees at an event. */
  function EventStream(tokens: seq<Token>, e: ErrorEvent): Option<ControlFlowErrors.StreamView> {
    Some(ControlFlowErrors.StreamView(tokens, e.streamIndex))
  }

  /** The messages the handler records for one error event. */
  function EventMessages(tokens: seq<Token>, e: ErrorEvent, table: map<int, seq<string>>): seq<string> {
    SyntaxCheck.ClassifiedMessages(e.p, e.stack, e.lookahead, EventStream(tokens, e),
                                   if e.state in table then table[e.state] else [])
  }

  /** The message lists of a run's events, one per event. */
  function EventMessageLists(tokens: seq<Token>, events: seq<ErrorEvent>, table: map<int, seq<string>>): (mss: seq<seq<string>>)
    ensures |mss| == |events|
  {
    seq(|events|, i requires 0 <= i < |events| => EventMessages(tokens, events[i], table))
  }

  /** The lists one after the other. */
  function Concat(mss: seq<seq<string>>): seq<string> {
    if mss == [] then [] else Concat(mss[..|mss| - 1]) + mss[|mss| - 1]
  }

  /** The messages the handler records over a run's error events, in order. */
  function HandlerMessages(tokens: seq<Token>, events: seq<ErrorEvent>, table: map<int, seq<string>>): seq<string> {
    Concat(EventMessageLists(tokens, events, table))
  }

  /** A list of between one and three messages per event concatenates to
      between one and three times as many messages as events. */
  lemma {:induction false} ConcatBounds(mss: seq<seq<string>>)
    requires forall i :: 0 <= i < |mss| ==> 1 <= |mss[i]| <= 3
    ensures |mss| <= |Concat(mss)| <= 3 * |mss|
  {
    if mss != [] {
      ConcatBounds(mss[..|mss| - 1]);
    }
  }

  /** Every error event leaves between one and three messages. */
  lemma HandlerMessagesCount(tokens: seq<Token>, events: seq<ErrorEvent>, table: map<int, seq<string>>)
    ensures |events| <= |HandlerMessages(tokens, events, table)| <= 3 * |events|
  {
    var mss := EventMessageLists(tokens, events, table);
    forall i | 0 <= i < |mss|
      ensures 1 <= |mss[i]| <= 3
    {
      var e := events[i];
      SyntaxCheck.ClassifiedMessagesCount(e.p, e.stack, e.lookahead, EventStream(tokens, e),
                                          if e.state in table then table[e.state] else []);
    }
    ConcatBounds(mss);
  }

  const ParsingErrorPrefix := "Parsing error: "

  /** The TypeError of `write_syntax_analysis(ast, errors)`: the writer in
      `utils/output_handler.py` takes the tree alone. */
  const WriterArityMessage := "write_syntax_analysis() takes 1 positional argument but 2 were given"

  /** The text of the exception that ends a run of `parse`. */
  function ExceptionText(end: RunEnd): string {
    match end
    case Returned(_) => WriterArityMessage
    case Raised(m) => m
  }

  /** The pair `parse` returns for a run. The list was cleared first, so it
      holds the run's own syntax errors. A run that returns reaches the
      two-argument call of the one-argument writer, whose TypeError is
      caught like any other exception. So every run ends in the exception
      handler: no tree, and one more message naming the exception. */
  function ParseResult(tokens: seq<Token>, run: ParseRun, table: map<int, seq<string>>): (r: (Option<Node>, seq<string>))
    ensures r.0 == None
    ensures |r.1| == |HandlerMessages(tokens, run.events, table)| + 1
    ensures r.1[..|r.1| - 1] == HandlerMessages(tokens, run.events, table)
    ensures run.end.Raised? ==> r.1[|r.1| - 1] == ParsingErrorPrefix + run.end.message
    ensures run.end.Returned? ==> r.1[|r.1| - 1] == ParsingErrorPrefix + WriterArityMessage
  {
    (None, HandlerMessages(tokens, run.events, table) + [ParsingErrorPrefix + ExceptionText(run.end)])
  }

  /** The pair `parse` evidently means to return, with a writer call that
      matches the writer: the run's tree and its syntax errors, and on an
      exception no tree and one more message naming it. */
  function ParseResultIntended(tokens: seq<Token>, run: ParseRun, table: map<int, seq<string>>): (r: (Option<Node>, seq<string>))
    ensures run.end.Returned? ==> r == (run.end.ast, HandlerMessages(tokens, run.events, table))
    ensures run.end.Raised? ==> r.0 == None
    ensures HandlerMessages(tokens, run.events, table) <= r.1
    ensures run.end.Raised? <==> |r.1| == |HandlerMessages(tokens, run.events, table)| + 1
    ensures run.end.Raised? ==> r.1[|r.1| - 1] == ParsingErrorPrefix + run.end.message
  {
    var messages := HandlerMessages(tokens, run.events, table);
    match run.end
    case Returned(ast) => (ast, messages)
    case Raised(m) => (None, messages + [ParsingErrorPrefix + m])
  }

  /** A run without syntax errors that builds a tree: as written, `parse`
      loses the tree and reports the writer's TypeError; as intended, it
      returns the tree and no errors. */
  lemma ReturnedTreeIsLost(tokens: seq<Token>, tree: Node, table: map<int, seq<string>>)
    ensures ParseResult(tokens, ParseRun([], Returned(Some(tree))), table)
              == (None, [ParsingErrorPrefix + WriterArityMessage])
    ensures ParseResultIntended(tokens, ParseRun([], Returned(Some(tree))), table) == (Some(tree), [])
  {
    assert EventMessageLists(tokens, [], table) == [];
  }

  /** `mss` holds the message list of every event, in order. The link is
      only used where a message list of a particular event is named. */
  predicate ListsFor(tokens: seq<Token>, events: seq<ErrorEvent>, table: map<int, seq<string>>, mss: seq<seq<string>>) {
    |mss| == |events| &&
    forall i {:trigger EventMessages(tokens, events[i], table)} ::
      0 <= i < |events| ==> mss[i] == EventMessages(tokens, events[i], table)
  }

  lemma EventMessageListsFor(tokens: seq<Token>, events: seq<ErrorEvent>, table: map<int, seq<string>>)
    ensures ListsFor(tokens, events, table, EventMessageLists(tokens, events, table))
  {
  }

  /** The error handler called for event `i` of a run. */
  method HandleEvent(checker: SyntaxCheck.SyntaxChecker, ts: TokenStream, events: seq<ErrorEvent>, i: nat,
                     ghost mss: seq<seq<string>>)
    requires i < |events| && ListsFor(ts.tokens, events, checker.expectedTokens, mss)
    modifies checker
    ensures checker.errors == old(checker.errors) + mss[i]
    ensures checker.expectedTokens == old(checker.expectedTokens)
  {
    var e := events[i];
    assert mss[i] == EventMessages(ts.tokens, e, checker.expectedTokens);
    checker.HandleParserError(e.p, e.stack, e.lookahead, EventStream(ts.tokens, e), e.state);
  }

  /** The error handler called once for each event of a run, in order. */
  method HandleEvents(checker: SyntaxCheck.SyntaxChecker, ts: TokenStream, events: seq<ErrorEvent>,
                      ghost mss: seq<seq<string>>)
    requires ListsFor(ts.tokens, events, checker.expectedTokens, mss)
    modifies checker
    ensures checker.errors == old(checker.errors) + Concat(mss)
    ensures checker.expectedTokens == old(checker.expectedTokens)
  {
    var i := 0;
    while i < |events|
      invariant 0 <= i <= |events|
      invariant checker.errors == old(checker.errors) + Concat(mss[..i])
      invariant checker.expectedTokens == old(checker.expectedTokens)
    {
      assert mss[..i + 1][..i] == mss[..i];
      HandleEvent(checker, ts, events, i, mss);
      i := i + 1;
    }
    assert mss[..|events|] == mss;
  }

  /** `parse(token_list)`: clear the errors, wrap the tokens in a stream,
      let the run call the error handler for each of its events, then end in
      the exception handler, which appends the exception's text (the run's
      own, or the writer's TypeError) to the shared list itself. */
  method Parse(checker: SyntaxCheck.SyntaxChecker, tokens: seq<Token>, run: ParseRun)
    returns (ast: Option<Node>, errors: seq<string>)
    modifies checker
    ensures (ast, errors) == ParseResult(tokens, run, old(checker.expectedTokens))
    ensures checker.errors == errors
    ensures checker.expectedTokens == old(checker.expectedTokens)
  {
    checker.ClearErrors();
    var ts := new TokenStream(tokens);
    EventMessageListsFor(tokens, run.events, checker.expectedTokens);
    HandleEvents(checker, ts, run.events, EventMessageLists(tokens, run.events, checker.expectedTokens));
    errors := checker.GetErrors();
    assert errors == HandlerMessages(tokens, run.events, old(checker.expectedTokens));
    errors := errors + [ParsingErrorPrefix + ExceptionText(run.end)];
    checker.errors := errors;
    ast := None;
  }
}
