/// Places where the lowering pass, as written, reads outside the list it was
/// given or calls through a null handler. Each is stated twice: a function
/// that does what the code does, with a lemma exhibiting the input that goes
/// wrong, and the behaviour the rest of the model uses, with the property
/// the authors evidently meant proved about it.

module Findings {
  import opened Values
  import opened Emission
  import S = Statements
  import Spec = LoweringSpec

  /// The result of reading `values[k].origin`: an origin, or a read past the
  /// end of the vector (undefined behaviour in the source).
  datatype OriginRead = InRange(origin: Origin) | PastEnd

  function ReadOrigin(l: List, k: nat): (r: OriginRead)
    ensures r.PastEnd? <==> k >= |l.values|
  {
    if k < |l.values| then InRange(l.values[k].origin) else PastEnd
  }

  // ------------------------------------------------------------------------
  // `and`/`or` without operands

  /// The origin `and` and `or` report when they have fewer than two
  /// operands, as the code reads it: always the entry at index 1.
  function ShortCircuitArityOriginAsWritten(l: List): OriginRead
  {
    ReadOrigin(l, 1)
  }

  /// `(and)` and `(or)` reach the arity diagnostic with only their head, so
  /// the read is past the end.
  lemma ShortCircuitArityReadsPastEnd(head: ListValue)
    ensures var l := ListOf([head]);
            |l.values| < 3 && ShortCircuitArityOriginAsWritten(l) == PastEnd
  {
  }

  /// The corrected diagnostic is always at an entry of the list, and at the
  /// same one the code reads whenever that read is in range.
  lemma ShortCircuitArityOriginCorrected(l: List, st: St)
    requires 0 < |l.values| < 3
    ensures var o := Spec.FirstOperandOrigin(l);
            && Spec.StmtAnd(l, st) == AddError(st, Arity("and"), o)
            && Spec.StmtOr(l, st) == AddError(st, Arity("or"), o)
            && (exists k :: 0 <= k < |l.values| && l.values[k].origin == o)
            && (ShortCircuitArityOriginAsWritten(l).InRange? ==> ShortCircuitArityOriginAsWritten(l).origin == o)
  {
    var k := if |l.values| > 1 then 1 else 0;
    assert l.values[k].origin == Spec.FirstOperandOrigin(l);
  }

  // ------------------------------------------------------------------------
  // `break`/`continue` outside a loop

  /// The origin `break` and `continue` report when no loop encloses them, as
  /// the code reads it: the entry at index 1, right after checking that the
  /// list holds its head only.
  function OutsideLoopOriginAsWritten(l: List): OriginRead
  {
    ReadOrigin(l, 1)
  }

  /// Every input that reaches the outside-loop diagnostic makes the code read
  /// past the end of the list.
  lemma OutsideLoopReadsPastEnd(l: List)
    requires |l.values| > 0 && S.CheckListSize(l, 1, 1)
    ensures OutsideLoopOriginAsWritten(l) == PastEnd
  {
  }

  /// The corrected diagnostic is at the statement's own head, and nothing is
  /// emitted.
  lemma OutsideLoopOriginCorrected(l: List, st: St)
    requires |l.values| == 1
    ensures |st.breakLabels| == 0 ==> Spec.StmtBreak(l, st) == AddError(st, OutsideLoop("break"), l.values[0].origin)
    ensures |st.continueLabels| == 0 ==> Spec.StmtContinue(l, st) == AddError(st, OutsideLoop("continue"), l.values[0].origin)
  {
  }

  // ------------------------------------------------------------------------
  // The empty reserved word

  /// The handler the code's lookup calls for `word`: the first entry of the
  /// whole table, sentinel included, that is named `word`.
  function LookupAsWritten(word: string): S.Handler
  {
    var k := S.FindStatement(word, 0);
    if k < |S.StatementTypes| then S.StatementTypes[k].handler else S.NoHandler
  }

  /// A reserved word with empty text matches the sentinel entry, so the code
  /// calls its null handler.
  lemma EmptyWordCallsNullHandler()
    ensures S.FindStatement("", 0) == 0 && LookupAsWritten("") == S.NoHandler
  {
  }

  /// The corrected lookup treats the sentinel as no match: an empty word is
  /// reported as an unknown command and nothing is emitted.
  lemma EmptyWordReported(l: List, st: St)
    requires |l.values| > 0 && l.values[0].value.text == ""
    ensures Spec.HandleReservedStmt(l, st) == AddError(st, UnknownCommand, l.values[0].origin)
  {
    assert S.FindStatement("", 0) == 0;
  }
}
