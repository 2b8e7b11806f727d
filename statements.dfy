/// The table of reserved words, its lookup, and the operand-count check the
/// handlers share.

module Statements {
  import opened Values

  /// The handler a reserved word dispatches to; `NoHandler` is the null
  /// pointer of the table's sentinel entry.
  datatype Handler =
    | NoHandler
    | StmtAnd | StmtAsm | StmtBreak | StmtContinue | StmtDec | StmtDoWhile | StmtIf | StmtInc
    | StmtList | StmtReturn | StmtString | StmtOption | StmtOr | StmtPrint | StmtPrintUf
    | StmtProc | StmtWhile

  /// One row of the table: the reserved word, its handler, and whether the
  /// handler leaves a value of its own (if not, the dispatcher pushes one).
  datatype StatementType = StatementType(name: string, handler: Handler, hasResult: bool)

  /// The table, in the source's order; entry 0 is the empty-name sentinel
  /// whose `hasResult` is left at its zero value.
  const StatementTypes: seq<StatementType> := [
    StatementType("", NoHandler, false),
    StatementType("and", StmtAnd, true),
    StatementType("asm", StmtAsm, false),
    StatementType("break", StmtBreak, false),
    StatementType("continue", StmtContinue, false),
    StatementType("dec", StmtDec, false),
    StatementType("do_while", StmtDoWhile, false),
    StatementType("if", StmtIf, true),
    StatementType("inc", StmtInc, false),
    StatementType("list", StmtList, true),
    StatementType("return", StmtReturn, false),
    StatementType("string", StmtString, true),
    StatementType("option", StmtOption, false),
    StatementType("or", StmtOr, true),
    StatementType("print", StmtPrint, false),
    StatementType("print_uf", StmtPrintUf, false),
    StatementType("proc", StmtProc, true),
    StatementType("while", StmtWhile, false)
  ]

  /// Index of the first table entry named `word` at or after `from`, or the
  /// table's length when there is none.
  function FindStatement(word: string, from: nat): (i: nat)
    requires from <= |StatementTypes|
    ensures from <= i <= |StatementTypes|
    ensures i < |StatementTypes| ==> StatementTypes[i].name == word
    decreases |StatementTypes| - from
  {
    if from == |StatementTypes| then from
    else if StatementTypes[from].name == word then from
    else FindStatement(word, from + 1)
  }

  /// The entry found is the first one named `word`: every entry before it
  /// has another name.
  lemma {:induction false} FindStatementFirst(word: string, from: nat)
    requires from <= |StatementTypes|
    ensures forall k :: from <= k < FindStatement(word, from) ==> StatementTypes[k].name != word
    decreases |StatementTypes| - from
  {
    if from < |StatementTypes| && StatementTypes[from].name != word {
      FindStatementFirst(word, from + 1);
    }
  }

  /// No two entries of the table share a name, so a word selects at most one entry.
  lemma TableNamesDistinct()
    ensures forall i, j :: 0 <= i < j < |StatementTypes| ==> StatementTypes[i].name != StatementTypes[j].name
  {
  }

  /// The entry for `word`, or the sentinel entry 0 when no entry is named `word`.
  method GetReservedWord(word: string) returns (r: StatementType)
    ensures (exists k :: 0 <= k < |StatementTypes| && StatementTypes[k].name == word) ==> r.name == word
    ensures (forall k :: 0 <= k < |StatementTypes| ==> StatementTypes[k].name != word) ==> r == StatementTypes[0]
    ensures r in StatementTypes
  {
    var i := 0;
    while i < |StatementTypes|
      invariant 0 <= i <= |StatementTypes|
      invariant forall k :: 0 <= k < i ==> StatementTypes[k].name != word
    {
      if StatementTypes[i].name == word {
        return StatementTypes[i];
      }
      i := i + 1;
    }
    return StatementTypes[0];
  }

  /// Whether the list's length (head included) lies within `minSize..maxSize`.
  predicate CheckListSize(l: List, minSize: int, maxSize: int)
  {
    minSize <= |l.values| <= maxSize
  }
}
