/**
 * The compilation error collector: records tagged with the phase that
 * produced them, a text form with optional column and value, and the
 * report step that sorts every record by line, syntax records first on a
 * line, and splits the sorted list into the syntax and the semantic group.
 */
module ErrorCollection {
  import opened Wrappers
  import Text

  /** One collected error. A column of None or 0 and a value of None or ""
      are Python-falsy and do not print. */
  datatype CompilationError = CompilationError(phase: string, message: string, line: int,
                                               column: Option<int>, value: Option<string>)

  predicate ColumnShown(column: Option<int>) {
    column.Some? && column.value != 0
  }

  predicate ValueShown(value: Option<string>) {
    value.Some? && value.value != ""
  }

  function ColumnSuffix(column: Option<int>): (r: string)
    ensures r == "" <==> !ColumnShown(column)
  {
    if ColumnShown(column) then ", column " + Text.IntToString(column.value) else ""
  }

  function ValueSuffix(value: Option<string>): (r: string)
    ensures r == "" <==> !ValueShown(value)
  {
    if ValueShown(value) then ": '" + value.value + "'" else ""
  }

  /** `CompilationError.__str__`. */
  function ToString(e: CompilationError): (r: string)
    ensures e.message + " at line " + Text.IntToString(e.line) <= r
    ensures !ColumnShown(e.column) && !ValueShown(e.value) ==>
              r == e.message + " at line " + Text.IntToString(e.line)
    ensures ColumnShown(e.column) && ValueShown(e.value) ==>
              r == e.message + " at line " + Text.IntToString(e.line) + ", column " + Text.IntToString(e.column.value)
                   + ": '" + e.value.value + "'"
    ensures !ColumnShown(e.column) && ValueShown(e.value) ==>
              r == e.message + " at line " + Text.IntToString(e.line) + ": '" + e.value.value + "'"
    ensures ColumnShown(e.column) && !ValueShown(e.value) ==>
              r == e.message + " at line " + Text.IntToString(e.line) + ", column " + Text.IntToString(e.column.value)
  {
    e.message + " at line " + Text.IntToString(e.line) + ColumnSuffix(e.column) + ValueSuffix(e.value)
  }

  /** The text of a record is longer exactly by its shown suffixes: a
      falsy column or value adds nothing. */
  lemma ToStringLength(e: CompilationError)
    ensures |ToString(e)| == |e.message| + 9 + |Text.IntToString(e.line)|
                             + (if ColumnShown(e.column) then 9 + |Text.IntToString(e.column.value)| else 0)
                             + (if ValueShown(e.value) then 4 + |e.value.value| else 0)
  {
  }

  // ---------------------------------------------------------------------
  // The sort key
  // ---------------------------------------------------------------------

  /** `e.phase != 'syntax'` as the second key: False (0) sorts first. */
  function Rank(e: CompilationError): nat {
    if e.phase == "syntax" then 0 else 1
  }

  /** The sort key `(e.line, e.phase != 'syntax')` of `a` is at most that of `b`. */
  predicate KeyLe(a: CompilationError, b: CompilationError) {
    a.line < b.line || (a.line == b.line && Rank(a) <= Rank(b))
  }

  predicate SameKey(a: CompilationError, b: CompilationError) {
    a.line == b.line && Rank(a) == Rank(b)
  }

  predicate Sorted(s: seq<CompilationError>) {
    forall i, j :: 0 <= i < j < |s| ==> KeyLe(s[i], s[j])
  }

  /** Sorted by the key means: lines never decrease, and on one line every
      syntax record comes before every other record. */
  lemma SortedMeaning(s: seq<CompilationError>)
    requires Sorted(s)
    ensures forall i, j :: 0 <= i < j < |s| ==> s[i].line <= s[j].line
    ensures forall i, j :: 0 <= i < j < |s| && s[i].line == s[j].line && s[j].phase == "syntax" ==>
              s[i].phase == "syntax"
  {
  }

  /** Python's stable sort, as repeated insertion: each record goes after
      every record already placed whose key is not larger. */
  function Insert(x: CompilationError, t: seq<CompilationError>): (r: seq<CompilationError>)
    ensures |r| == |t| + 1
  {
    if t == [] || KeyLe(t[|t| - 1], x) then t + [x]
    else Insert(x, t[..|t| - 1]) + [t[|t| - 1]]
  }

  function SortByKey(s: seq<CompilationError>): (r: seq<CompilationError>)
    ensures |r| == |s|
  {
    if s == [] then [] else Insert(s[|s| - 1], SortByKey(s[..|s| - 1]))
  }

  /** The records with one key, in their order. */
  function WithKey(s: seq<CompilationError>, k: CompilationError): seq<CompilationError> {
    if s == [] then []
    else WithKey(s[..|s| - 1], k) + (if SameKey(s[|s| - 1], k) then [s[|s| - 1]] else [])
  }

  lemma {:induction false} InsertPermutes(x: CompilationError, t: seq<CompilationError>)
    ensures multiset(Insert(x, t)) == multiset(t) + multiset{x}
  {
    if t != [] && !KeyLe(t[|t| - 1], x) {
      InsertPermutes(x, t[..|t| - 1]);
      assert t == t[..|t| - 1] + [t[|t| - 1]];
    }
  }

  lemma {:induction false} InsertSorted(x: CompilationError, t: seq<CompilationError>)
    requires Sorted(t)
    ensures Sorted(Insert(x, t))
  {
    if t != [] && !KeyLe(t[|t| - 1], x) {
      var init := t[..|t| - 1];
      var last := t[|t| - 1];
      InsertSorted(x, init);
      InsertPermutes(x, init);
      var r := Insert(x, init);
      forall i | 0 <= i < |r|
        ensures KeyLe(r[i], last)
      {
        assert r[i] in multiset(r);
        if r[i] != x {
          assert r[i] in multiset(init);
          var j :| 0 <= j < |init| && init[j] == r[i];
          assert KeyLe(t[j], t[|t| - 1]);
        }
      }
    }
  }

  lemma {:induction false} InsertWithKey(x: CompilationError, t: seq<CompilationError>, k: CompilationError)
    requires Sorted(t)
    ensures WithKey(Insert(x, t), k) == WithKey(t, k) + (if SameKey(x, k) then [x] else [])
  {
    if t != [] && !KeyLe(t[|t| - 1], x) {
      var init := t[..|t| - 1];
      var last := t[|t| - 1];
      assert Sorted(init);
      InsertWithKey(x, init, k);
      assert Insert(x, t)[..|Insert(x, t)| - 1] == Insert(x, init);
      if SameKey(x, k) {
        assert !SameKey(last, k);
      }
    } else {
      assert (t + [x])[..|t|] == t;
    }
  }

  /** The sort orders the records by key, keeps each record exactly as often,
      and is stable: the records of one key appear in their original
      order. */
  lemma {:induction false} SortByKeyCorrect(s: seq<CompilationError>)
    ensures Sorted(SortByKey(s))
    ensures multiset(SortByKey(s)) == multiset(s)
    ensures forall k :: WithKey(SortByKey(s), k) == WithKey(s, k)
  {
    if s != [] {
      var init := s[..|s| - 1];
      SortByKeyCorrect(init);
      InsertSorted(s[|s| - 1], SortByKey(init));
      InsertPermutes(s[|s| - 1], SortByKey(init));
      assert s == init + [s[|s| - 1]];
      forall k
        ensures WithKey(SortByKey(s), k) == WithKey(s, k)
      {
        InsertWithKey(s[|s| - 1], SortByKey(init), k);
      }
    }
  }

  // ---------------------------------------------------------------------
  // Groups
  // ---------------------------------------------------------------------

  /** The records of one phase, in order. */
  function OfPhase(s: seq<CompilationError>, phase: string): (r: seq<CompilationError>)
    ensures |r| <= |s|
    ensures forall i :: 0 <= i < |r| ==> r[i].phase == phase
    ensures multiset(r) <= multiset(s)
  {
    if s == [] then []
    else
      var init := s[..|s| - 1];
      assert s == init + [s[|s| - 1]];
      OfPhase(init, phase) + (if s[|s| - 1].phase == phase then [s[|s| - 1]] else [])
  }

  /** The phases `report_errors` prints a group for. */
  predicate Grouped(e: CompilationError) {
    e.phase == "syntax" || e.phase == "semantic"
  }

  /** How many records belong to neither group. */
  function OtherCount(s: seq<CompilationError>): nat {
    if s == [] then 0
    else OtherCount(s[..|s| - 1]) + (if Grouped(s[|s| - 1]) then 0 else 1)
  }

  /** Every record is in exactly one of the two groups or counted as other,
      so the total exceeds the groups' sizes by exactly the other records. */
  lemma {:induction false} GroupsPartition(s: seq<CompilationError>)
    ensures |OfPhase(s, "syntax")| + |OfPhase(s, "semantic")| + OtherCount(s) == |s|
  {
    if s != [] {
      GroupsPartition(s[..|s| - 1]);
    }
  }

  /** No record is left out of both groups exactly when every phase is
      syntax or semantic. */
  lemma {:induction false} NoOthers(s: seq<CompilationError>)
    ensures OtherCount(s) == 0 <==> forall i :: 0 <= i < |s| ==> Grouped(s[i])
  {
    if s != [] {
      var init := s[..|s| - 1];
      NoOthers(init);
      assert forall i :: 0 <= i < |init| ==> init[i] == s[i];
    }
  }

  /** A group of a sorted list is sorted too. */
  lemma {:induction false} OfPhaseSorted(s: seq<CompilationError>, phase: string)
    requires Sorted(s)
    ensures Sorted(OfPhase(s, phase))
  {
    if s != [] {
      var init := s[..|s| - 1];
      var last := s[|s| - 1];
      assert Sorted(init);
      OfPhaseSorted(init, phase);
      var g := OfPhase(init, phase);
      forall i | 0 <= i < |g|
        ensures KeyLe(g[i], last)
      {
        assert g[i] in multiset(g);
        assert g[i] in multiset(init);
        var j :| 0 <= j < |init| && init[j] == g[i];
        assert KeyLe(s[j], s[|s| - 1]);
      }
    }
  }

  // ---------------------------------------------------------------------
  // The collector
  // ---------------------------------------------------------------------

  /** What `report_errors` prints, as data: the two groups and the total. */
  datatype Report = Report(syntaxErrors: seq<CompilationError>, semanticErrors: seq<CompilationError>, total: nat)

  /** The report of a sorted list. */
  function ReportOf(sorted: seq<CompilationError>): (r: Report)
    ensures r.total == |sorted|
    ensures |r.syntaxErrors| + |r.semanticErrors| <= r.total
  {
    GroupsPartition(sorted);
    Report(OfPhase(sorted, "syntax"), OfPhase(sorted, "semantic"), |sorted|)
  }

  class ErrorCollector {
    var errors: seq<CompilationError>

    constructor()
      ensures errors == []
    {
      errors := [];
    }

    /** `add_error`: one more record, at the end. */
    method AddError(phase: string, message: string, line: int, column: Option<int>, value: Option<string>)
      modifies this
      ensures errors == old(errors) + [CompilationError(phase, message, line, column, value)]
    {
      errors := errors + [CompilationError(phase, message, line, column, value)];
    }

    /** `has_errors`. */
    function HasErrors(): (r: bool)
      reads this
      ensures r <==> errors != []
    {
      |errors| > 0
    }

    /** `report_errors`: nothing to report leaves the list alone; otherwise
        sort it in place and report its two groups and the total. */
    method ReportErrors() returns (reported: bool, report: Report)
      modifies this
      ensures reported <==> old(errors) != []
      ensures !reported ==> errors == old(errors)
      ensures reported ==> errors == SortByKey(old(errors)) && report == ReportOf(errors)
    {
      if errors == [] {
        return false, Report([], [], 0);
      }
      errors := SortByKey(errors);
      var syntax := OfPhase(errors, "syntax");
      var semantic := OfPhase(errors, "semantic");
      return true, Report(syntax, semantic, |errors|);
    }
  }

  /** After a report the collector holds the same records, sorted by line
      with syntax records first on each line, records of equal key in their
      insertion order, and both groups sorted. */
  lemma ReportedListIsSorted(s: seq<CompilationError>)
    ensures Sorted(SortByKey(s)) && multiset(SortByKey(s)) == multiset(s)
    ensures forall k :: WithKey(SortByKey(s), k) == WithKey(s, k)
    ensures Sorted(ReportOf(SortByKey(s)).syntaxErrors) && Sorted(ReportOf(SortByKey(s)).semanticErrors)
  {
    SortByKeyCorrect(s);
    OfPhaseSorted(SortByKey(s), "syntax");
    OfPhaseSorted(SortByKey(s), "semantic");
  }
}
