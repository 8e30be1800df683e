/**
 * What the parse-error checks can see of PLY's state when the parser fails:
 * a snapshot of the symbol stack. A stack entry may have a `type` attribute
 * and a `value` attribute; the checks only ever compare a value with a
 * string, or the `type` of a value that is itself a token. A value that is
 * neither (a number, a node, a list) passes no test, exactly like an absent
 * value, so the model folds it into `None`.
 *
 * Python's `range(hi - 1, lo - 1, -1)` is written here as the half-open
 * window [lo, hi) of stack indices.
 */
module ParserState {
  import opened Wrappers
  import opened Tokens
  import Text

  /** A grammar symbol's `type`: a token kind or a nonterminal's name. */
  datatype SymType = Terminal(k: Kind) | Nonterminal(name: string)

  datatype SymValue = Text(s: string) | Tok(kind: SymType)

  datatype Sym = Sym(kind: Option<SymType>, value: Option<SymValue>)

  /** `hasattr(sym, 'type') and sym.type == t` */
  predicate KindIs(sym: Sym, t: SymType) {
    sym.kind == Some(t)
  }

  /** `hasattr(sym, 'type') and sym.type in ks`, for a list of token kinds. */
  predicate KindIn(sym: Sym, ks: set<Kind>) {
    sym.kind.Some? && sym.kind.value.Terminal? && sym.kind.value.k in ks
  }

  /** `hasattr(sym, 'value') and sym.value == t` */
  predicate ValueIs(sym: Sym, t: string) {
    sym.value == Some(Text(t))
  }

  /** `hasattr(sym, 'value') and sym.value in ts` */
  predicate ValueIn(sym: Sym, ts: seq<string>) {
    sym.value.Some? && sym.value.value.Text? && sym.value.value.s in ts
  }

  /** `hasattr(sym, 'value') and hasattr(sym.value, 'type') and sym.value.type == k` */
  predicate ValueTokenIs(sym: Sym, k: SymType) {
    sym.value.Some? && sym.value.value.Tok? && sym.value.value.kind == k
  }

  /** Some entry in the window [lo, hi) holds a token of kind `k` as its value. */
  predicate AnyValueToken(stack: seq<Sym>, lo: int, hi: int, k: SymType)
    requires 0 <= lo && 0 <= hi <= |stack|
  {
    exists i :: lo <= i < hi && ValueTokenIs(stack[i], k)
  }

  /** Some entry in the window [lo, hi) has the value `t`. */
  predicate AnyValue(stack: seq<Sym>, lo: int, hi: int, t: string)
    requires 0 <= lo && 0 <= hi <= |stack|
  {
    exists i :: lo <= i < hi && ValueIs(stack[i], t)
  }

  /** The backward scan with `break` that the checks use to find a token-valued
      entry of kind `k`: from index hi - 1 down to lo. */
  method ScanValueToken(stack: seq<Sym>, lo: int, hi: int, k: SymType) returns (found: bool)
    requires 0 <= lo && 0 <= hi <= |stack|
    ensures found == AnyValueToken(stack, lo, hi, k)
  {
    found := false;
    var i := hi - 1;
    while i >= lo
      invariant -1 <= i < hi
      invariant forall j :: i < j < hi ==> !ValueTokenIs(stack[j], k)
    {
      if ValueTokenIs(stack[i], k) {
        found := true;
        break;
      }
      i := i - 1;
    }
  }

  /** The same backward scan, looking for an entry whose value is `t`. */
  method ScanValue(stack: seq<Sym>, lo: int, hi: int, t: string) returns (found: bool)
    requires 0 <= lo && 0 <= hi <= |stack|
    ensures found == AnyValue(stack, lo, hi, t)
  {
    found := false;
    var i := hi - 1;
    while i >= lo
      invariant -1 <= i < hi
      invariant forall j :: i < j < hi ==> !ValueIs(stack[j], t)
    {
      if ValueIs(stack[i], t) {
        found := true;
        break;
      }
      i := i - 1;
    }
  }

  /** Number of entries in [lo, hi) whose value is `t`. */
  function CountValue(stack: seq<Sym>, lo: nat, hi: nat, t: string): nat
    requires hi <= |stack|
    decreases hi - lo
  {
    if lo >= hi then 0
    else (if ValueIs(stack[lo], t) then 1 else 0) + CountValue(stack, lo + 1, hi, t)
  }

  lemma {:induction false} CountValuePositive(stack: seq<Sym>, lo: nat, hi: nat, t: string)
    requires hi <= |stack|
    ensures CountValue(stack, lo, hi, t) > 0 <==> AnyValue(stack, lo, hi, t)
    decreases hi - lo
  {
    if lo < hi {
      CountValuePositive(stack, lo + 1, hi, t);
      if ValueIs(stack[lo], t) {
        assert AnyValue(stack, lo, hi, t);
      } else if AnyValue(stack, lo, hi, t) {
        var i :| lo <= i < hi && ValueIs(stack[i], t);
        assert i != lo;
        assert AnyValue(stack, lo + 1, hi, t);
      }
    }
  }

  /** The control keywords a condition scan looks for. */
  const ControlKeywords: seq<string> := ["IF", "WHILE"]

  /** Index of the topmost entry in [1, hi) whose value is IF or WHILE. */
  function NearestControlIndex(stack: seq<Sym>, hi: nat): (r: Option<nat>)
    requires hi <= |stack|
    ensures r.Some? ==> 1 <= r.value < hi && ValueIn(stack[r.value], ControlKeywords)
  {
    if hi <= 1 then None
    else if ValueIn(stack[hi - 1], ControlKeywords) then Some(hi - 1)
    else NearestControlIndex(stack, hi - 1)
  }

  /** The nearest IF/WHILE keyword below the top of the stack, index 0 excluded. */
  function NearestControlKeyword(stack: seq<Sym>): (kw: Option<string>)
    ensures kw.Some? ==> kw.value in ControlKeywords
  {
    match NearestControlIndex(stack, |stack|)
    case None => None
    case Some(i) => Some(stack[i].value.value.s)
  }

  /** NearestControlIndex finds the topmost keyword entry and misses none. */
  lemma {:induction false} NearestControlIndexIsTopmost(stack: seq<Sym>, hi: nat)
    requires hi <= |stack|
    ensures NearestControlIndex(stack, hi).None? <==>
              forall j :: 1 <= j < hi ==> !ValueIn(stack[j], ControlKeywords)
    ensures NearestControlIndex(stack, hi).Some? ==>
              forall j :: NearestControlIndex(stack, hi).value < j < hi ==> !ValueIn(stack[j], ControlKeywords)
  {
    if hi > 1 && !ValueIn(stack[hi - 1], ControlKeywords) {
      NearestControlIndexIsTopmost(stack, hi - 1);
    }
  }

  /** The source's loop: scan from the top down to index 1 and stop at the
      first IF or WHILE, remembering which one it was. */
  method FindControlKeyword(stack: seq<Sym>) returns (kw: Option<string>)
    ensures kw == NearestControlKeyword(stack)
    ensures kw.None? <==> forall j :: 1 <= j < |stack| ==> !ValueIn(stack[j], ControlKeywords)
  {
    NearestControlIndexIsTopmost(stack, |stack|);
    kw := None;
    var i := |stack| - 1;
    while i > 0
      invariant -1 <= i < |stack|
      invariant NearestControlIndex(stack, |stack|) == NearestControlIndex(stack, i + 1)
    {
      if ValueIn(stack[i], ControlKeywords) {
        kw := Some(stack[i].value.value.s);
        break;
      }
      i := i - 1;
    }
  }

  // ---------------------------------------------------------------------
  // Shared by the checks: the lookahead token and the message format
  // ---------------------------------------------------------------------

  /** Python's `max(a, b)`. */
  function Max(a: int, b: int): int {
    if a >= b then a else b
  }

  /** `next_token and next_token.type == k` */
  predicate LookaheadIs(lookahead: Option<Token>, k: Kind) {
    lookahead.Some? && lookahead.value.kind == k
  }

  /** `next_token and next_token.type not in ks` */
  predicate LookaheadOtherThan(lookahead: Option<Token>, ks: set<Kind>) {
    lookahead.Some? && lookahead.value.kind !in ks
  }

  /** The prefix every specific syntax diagnostic starts with. */
  function SyntaxPrefix(line: nat): string {
    "Syntax error at line " + Text.NatToString(line) + ": "
  }

  /** `f"Syntax error at line {p.lineno}: {reason}"` */
  function SyntaxMessage(line: nat, reason: string): (m: string)
    ensures SyntaxPrefix(line) <= m
  {
    SyntaxPrefix(line) + reason
  }
  /** The line a message of the `SyntaxPrefix` shape names, if it has one. */
  function MessageLine(m: string): (line: Option<nat>)
  {
    var prefix := "Syntax error at line ";
    if prefix <= m && |Text.TakeDigits(m[|prefix|..])| > 0 then Some(Text.DigitsValue(Text.TakeDigits(m[|prefix|..])))
    else None
  }

  /** A message that starts with the prefix for `line` names exactly that line. */
  lemma PrefixNamesLine(line: nat, m: string)
    requires SyntaxPrefix(line) <= m
    ensures MessageLine(m) == Some(line)
  {
    var prefix := "Syntax error at line ";
    var digits := Text.NatToString(line);
    var tail := m[|SyntaxPrefix(line)|..];
    assert m == SyntaxPrefix(line) + tail;
    assert m == prefix + (digits + (": " + tail));
    assert m[|prefix|..] == digits + (": " + tail);
    Text.TakeDigitsOfDigits(digits, ": " + tail);
    Text.NatToStringRoundTrip(line);
  }

  /** In particular a syntax message names the line it was built with. */
  lemma SyntaxMessageLine(line: nat, reason: string)
    ensures MessageLine(SyntaxMessage(line, reason)) == Some(line)
  {
    PrefixNamesLine(line, SyntaxMessage(line, reason));
  }

  /** Every message in `ms` is a syntax diagnostic for `line`. */
  predicate AllAtLine(ms: seq<string>, line: nat) {
    forall i :: 0 <= i < |ms| ==> SyntaxPrefix(line) <= ms[i]
  }

  /** The line every message of such a list names. */
  lemma AllAtLineNamesLine(ms: seq<string>, line: nat)
    requires AllAtLine(ms, line)
    ensures forall m :: m in ms ==> MessageLine(m) == Some(line)
  {
    forall m | m in ms
      ensures MessageLine(m) == Some(line)
    {
      var i :| 0 <= i < |ms| && ms[i] == m;
      PrefixNamesLine(line, ms[i]);
    }
  }

  /** The message a check appends when `fires` holds, and nothing otherwise. */
  function When(fires: bool, line: nat, reason: string): (ms: seq<string>)
    ensures |ms| <= 1 && AllAtLine(ms, line)
    ensures fires <==> ms == [SyntaxMessage(line, reason)]
    ensures !fires <==> ms == []
  {
    if fires then [SyntaxMessage(line, reason)] else []
  }

  /** Messages collected from several independent conditions stay diagnostics for that line. */
  lemma AllAtLineAppend(a: seq<string>, b: seq<string>, line: nat)
    requires AllAtLine(a, line) && AllAtLine(b, line)
    ensures AllAtLine(a + b, line)
  {
    forall i | 0 <= i < |a + b|
      ensures SyntaxPrefix(line) <= (a + b)[i]
    {
      if i >= |a| {
        assert (a + b)[i] == b[i - |a|];
      }
    }
  }
}
