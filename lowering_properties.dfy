/// Properties of the lowering pass, stated over the functions of module
/// LoweringSpec: the shape of the code each construct emits, the error paths
/// that emit nothing, the loop-target stacks, the label counter and the
/// placeholders that keep every expression's result on the stack.
///
/// Most shapes are stated for operands that `process_value` pushes as they
/// are ("leaves"); nested expressions emit whatever their own lowering emits,
/// and the general statements are the functions themselves.

module LoweringProperties {
  import opened Values
  import opened Emission
  import S = Statements
  import opened LoweringSpec

  // ------------------------------------------------------------------------
  // Leaves and the code runs they produce

  /// A value `process_value` pushes unchanged: neither a nested expression nor
  /// a kind it rejects.
  predicate IsLeaf(lv: ListValue)
  {
    lv.value.kind !in {Reserved, Indirection, Opcode, Symbol, Expression}
  }

  /// Every operand from index `from` on is a leaf.
  predicate LeafOperands(l: List, from: nat)
  {
    forall k :: from <= k < |l.values| ==> IsLeaf(l.values[k])
  }

  /// Operands `i` onwards pushed in order, each between `before` and `after`.
  function Interleave(l: List, i: nat, before: seq<Instr>, after: seq<Instr>): seq<Instr>
    requires i <= |l.values|
    decreases |l.values| - i
  {
    if i == |l.values| then []
    else before + [Val(l.values[i].value)] + after + Interleave(l, i + 1, before, after)
  }

  /// Operands `i` down to 1 pushed in that order.
  function Descending(l: List, i: nat): seq<Instr>
    requires i < |l.values|
  {
    if i == 0 then [] else [Val(l.values[i].value)] + Descending(l, i - 1)
  }

  /// A leaf is lowered to a push of itself.
  lemma LeafLowering(lv: ListValue, st: St)
    requires IsLeaf(lv)
    ensures ProcessValue(lv, st) == AddValue(st, lv.value)
  {
  }

  /// Shifting a list by one entry at the front shifts the run it produces.
  lemma {:induction false} InterleaveShift(l: List, head: ListValue, i: nat, before: seq<Instr>, after: seq<Instr>)
    requires i <= |l.values|
    ensures Interleave(ListOf([head] + l.values), i + 1, before, after) == Interleave(l, i, before, after)
    decreases |l.values| - i
  {
    if i < |l.values| {
      InterleaveShift(l, head, i + 1, before, after);
      assert ([head] + l.values)[i + 1] == l.values[i];
    }
  }

  /// One step of a run, with whatever precedes it.
  lemma InterleaveCons(pre: seq<Instr>, l: List, i: nat, before: seq<Instr>, after: seq<Instr>)
    requires i < |l.values|
    ensures pre + before + [Val(l.values[i].value)] + after + Interleave(l, i + 1, before, after)
         == pre + Interleave(l, i, before, after)
  {
    assert pre + before + [Val(l.values[i].value)] + after + Interleave(l, i + 1, before, after)
        == pre + (before + [Val(l.values[i].value)] + after + Interleave(l, i + 1, before, after));
  }

  lemma DescendingCons(pre: seq<Instr>, l: List, i: nat)
    requires 0 < i < |l.values|
    ensures pre + [Val(l.values[i].value)] + Descending(l, i - 1) == pre + Descending(l, i)
  {
    assert pre + [Val(l.values[i].value)] + Descending(l, i - 1) == pre + ([Val(l.values[i].value)] + Descending(l, i - 1));
  }

  // ------------------------------------------------------------------------
  // Labels

  /// The names a construct takes from the counter, numbered `n` to
  /// `n + width - 1`, differ from each other and from every name generated
  /// before them.
  lemma FreshLabels(n: nat, width: nat)
    ensures forall a: nat, b: nat :: a < b < n + width && n <= b ==> LabelName(a) != LabelName(b)
  {
    forall a: nat, b: nat | a < b < n + width && n <= b
      ensures LabelName(a) != LabelName(b)
    {
      LabelNameInjective(a, b);
    }
  }

  // ------------------------------------------------------------------------
  // Calls

  /// Operands that are not nested expressions are pushed as they are, from
  /// the last one down to the first.
  lemma {:induction false} CallOperandsLeaves(l: List, i: nat, st: St)
    requires i < |l.values|
    requires forall k :: 1 <= k <= i ==> l.values[k].value.kind != Expression
    ensures CallOperands(l, i, st) == (st.(code := st.code + Descending(l, i)), false)
  {
    if i > 0 {
      CallStep(l, i, st);
      CallOperandsLeaves(l, i - 1, st.(code := st.code + [Val(l.values[i].value)]));
      DescendingCons(st.code, l, i);
    } else {
      assert st.code + Descending(l, 0) == st.code;
    }
  }

  lemma CallStep(l: List, i: nat, st: St)
    requires 0 < i < |l.values| && l.values[i].value.kind != Expression
    ensures CallOperands(l, i, st) == CallOperands(l, i - 1, st.(code := st.code + [Val(l.values[i].value)]))
  {
  }

  /// `(f a1 ... an)` with plain operands and callee: an ... a1, the operand
  /// count, the callee, `Call`.
  lemma CallLeaves(l: List, st: St)
    requires |l.values| > 0
    requires forall k :: 0 <= k < |l.values| ==> l.values[k].value.kind != Expression
    ensures HandleCallStmt(l, st)
         == st.(code := st.code + Descending(l, |l.values| - 1)
                        + [Val(IntValue(|l.values| - 1)), Val(l.values[0].value), Op(Call)])
  {
    CallOperandsLeaves(l, |l.values| - 1, st);
  }

  /// With diagnostics already recorded (by this statement or an earlier one),
  /// a call whose last operand is a nested expression stops right after
  /// lowering it: no further operand, count, callee or `Call` is emitted.
  lemma CallStopsOnPriorErrors(l: List, st: St)
    requires |l.values| >= 2 && HasErrors(st)
    requires l.values[|l.values| - 1].value.kind == Expression
    ensures HandleCallStmt(l, st) == ProcessList(l.values[|l.values| - 1].sublist, st)
  {
    var s := ProcessList(l.values[|l.values| - 1].sublist, st);
    assert HasErrors(s);
  }

  // ------------------------------------------------------------------------
  // Implicit opcodes

  /// Operands of an opcode other than `Store`/`GetOption` that are not nested
  /// expressions are pushed as they are, last first.
  lemma {:induction false} OpcodeOperandsLeaves(l: List, i: nat, code: OpCode, st: St)
    requires i < |l.values| && code != Store && code != GetOption
    requires forall k :: 1 <= k <= i ==> l.values[k].value.kind != Expression
    ensures OpcodeOperands(l, i, code, st) == (st.(code := st.code + Descending(l, i)), false)
  {
    if i > 0 {
      OpcodeStep(l, i, code, st);
      OpcodeOperandsLeaves(l, i - 1, code, st.(code := st.code + [Val(l.values[i].value)]));
      DescendingCons(st.code, l, i);
    } else {
      assert st.code + Descending(l, 0) == st.code;
    }
  }

  lemma OpcodeStep(l: List, i: nat, code: OpCode, st: St)
    requires 0 < i < |l.values| && code != Store && code != GetOption && l.values[i].value.kind != Expression
    ensures OpcodeOperands(l, i, code, st) == OpcodeOperands(l, i - 1, code, st.(code := st.code + [Val(l.values[i].value)]))
  {
  }

  /// An opcode head that may not be used as an expression, or whose operand
  /// count differs from its declared inputs, records one diagnostic at the
  /// head and emits nothing.
  lemma AsmRejected(l: List, st: St)
    requires |l.values| > 0 && l.values[0].value.kind == Opcode
    requires var op := l.values[0].value.opcode;
             ForbidExpression in op.permissions
             || (WantedOperandCount(op) < 255 && |l.values| != WantedOperandCount(op))
    ensures HandleAsmStmt(l, st)
         == AddError(st, if ForbidExpression in l.values[0].value.opcode.permissions then OpcodeNotExpression else OperandCount,
                     l.values[0].origin)
  {
  }

  /// An accepted implicit opcode with plain operands: the operands last
  /// first, the opcode, and one `None` placeholder exactly when the opcode
  /// declares no outputs.
  lemma AsmLeaves(l: List, st: St)
    requires |l.values| > 0 && l.values[0].value.kind == Opcode
    requires var op := l.values[0].value.opcode;
             && ForbidExpression !in op.permissions
             && (WantedOperandCount(op) >= 255 || |l.values| == WantedOperandCount(op))
             && op.code != Store && op.code != GetOption
    requires forall k :: 1 <= k < |l.values| ==> l.values[k].value.kind != Expression
    ensures HandleAsmStmt(l, st)
         == st.(code := st.code + Descending(l, |l.values| - 1) + [Op(l.values[0].value.opcode.code)]
                        + (if l.values[0].value.opcode.outputs <= 0 then [Val(NoneValue())] else []))
  {
    OpcodeOperandsLeaves(l, |l.values| - 1, l.values[0].value.opcode.code, st);
  }

  /// The first operand of `Store`/`GetOption` is never lowered: a local
  /// variable becomes a reference to its slot, `None` passes for `GetOption`
  /// only, and anything else is reported without stopping.
  lemma StoreFirstOperand(l: List, code: OpCode, st: St)
    requires |l.values| >= 2 && (code == Store || code == GetOption)
    ensures OpcodeOperands(l, 1, code, st)
         == (var v := l.values[1];
             (if v.value.kind == LocalVar then AddValue(st, VarRefValue(v.value.num))
              else if v.value.kind == None && code == GetOption then AddValue(st, NoneValue())
              else AddError(st, InvalidStoreTarget, v.origin),
              false))
  {
    assert OpcodeOperands(l, 1, code, st).0 == OpcodeOperands(l, 0, code, OpcodeOperands(l, 1, code, st).0).0;
  }

  /// A `Store` whose target is not a local variable still emits its value
  /// operand and the opcode: the diagnostic does not end the statement.
  lemma StoreBadTargetContinues(l: List, st: St)
    requires |l.values| == 3 && l.values[0].value.kind == Opcode
    requires var op := l.values[0].value.opcode;
             op.code == Store && op.inputs == 2 && ForbidExpression !in op.permissions
    requires l.values[1].value.kind != LocalVar && l.values[2].value.kind != Expression
    ensures var r := HandleAsmStmt(l, st);
            && r.errors == st.errors + [Error(InvalidStoreTarget, l.values[1].origin)]
            && r.code == st.code + [Val(l.values[2].value), Op(Store)]
                         + (if l.values[0].value.opcode.outputs <= 0 then [Val(NoneValue())] else [])
  {
    var s := AddValue(st, l.values[2].value);
    StoreFirstOperand(l, Store, s);
    assert OpcodeOperands(l, 2, Store, st) == OpcodeOperands(l, 1, Store, s);
  }

  /// Likewise for an implicit opcode: with diagnostics already recorded, a
  /// nested last operand that is lowered as an expression ends the statement
  /// right after its own lowering; no opcode and no placeholder follow.
  lemma OpcodeStopsOnPriorErrors(l: List, st: St)
    requires |l.values| >= 2 && l.values[0].value.kind == Opcode && HasErrors(st)
    requires var op := l.values[0].value.opcode;
             && ForbidExpression !in op.permissions
             && (WantedOperandCount(op) >= 255 || |l.values| == WantedOperandCount(op))
             && !(|l.values| == 2 && (op.code == Store || op.code == GetOption))
    requires l.values[|l.values| - 1].value.kind == Expression
    ensures HandleAsmStmt(l, st) == ProcessList(l.values[|l.values| - 1].sublist, st)
  {
    var s := ProcessList(l.values[|l.values| - 1].sublist, st);
    assert HasErrors(s);
  }

  // ------------------------------------------------------------------------
  // Reserved words

  /// A word named by a real entry of the table selects that entry.
  lemma ReservedLookup(word: string, k: nat)
    requires 1 <= k < |S.StatementTypes| && S.StatementTypes[k].name == word
    ensures S.FindStatement(word, 0) == k
  {
    S.TableNamesDistinct();
    S.FindStatementFirst(word, 0);
  }

  /// A known word runs its handler; a handler that leaves no value of its own
  /// is followed by exactly one `PushNone`, so the expression still yields
  /// one value.
  lemma ReservedDispatch(l: List, k: nat, st: St)
    requires |l.values| > 0
    requires 1 <= k < |S.StatementTypes| && S.StatementTypes[k].name == l.values[0].value.text
    ensures HandleReservedStmt(l, st)
         == (var s := Dispatch(S.StatementTypes[k].handler, l, st);
             s.(code := s.code + if S.StatementTypes[k].hasResult then [] else [Op(PushNone)]))
  {
    ReservedLookup(l.values[0].value.text, k);
  }

  /// A word the table does not name is reported at the head and nothing is
  /// emitted.
  lemma UnknownWord(l: List, st: St)
    requires |l.values| > 0
    requires forall k :: 0 <= k < |S.StatementTypes| ==> S.StatementTypes[k].name != l.values[0].value.text
    ensures HandleReservedStmt(l, st) == AddError(st, UnknownCommand, l.values[0].origin)
  {
    var i := S.FindStatement(l.values[0].value.text, 0);
    assert i == |S.StatementTypes|;
  }

  // ------------------------------------------------------------------------
  // Short-circuit operators

  /// Plain operands of `and`/`or`, each followed by a conditional jump to
  /// `target`.
  lemma {:induction false} ShortCircuitLeaves(l: List, i: nat, target: string, jump: OpCode, st: St)
    requires 1 <= i <= |l.values| && LeafOperands(l, i)
    ensures ShortCircuitOperands(l, i, target, jump, st)
         == st.(code := st.code + Interleave(l, i, [], [Val(SymbolValue(target)), Op(jump)]))
    decreases |l.values| - i
  {
    var after := [Val(SymbolValue(target)), Op(jump)];
    if i < |l.values| {
      ShortCircuitStep(l, i, target, jump, st);
      ShortCircuitLeaves(l, i + 1, target, jump, st.(code := st.code + [] + [Val(l.values[i].value)] + after));
      InterleaveCons(st.code, l, i, [], after);
    } else {
      assert st.code + Interleave(l, i, [], after) == st.code;
    }
  }

  lemma ShortCircuitStep(l: List, i: nat, target: string, jump: OpCode, st: St)
    requires 1 <= i < |l.values| && IsLeaf(l.values[i])
    ensures ShortCircuitOperands(l, i, target, jump, st)
         == ShortCircuitOperands(l, i + 1, target, jump,
              st.(code := st.code + [] + [Val(l.values[i].value)] + [Val(SymbolValue(target)), Op(jump)]))
  {
    LeafLowering(l.values[i], st);
    var s1 := AddOpcode(AddValue(AddValue(st, l.values[i].value), SymbolValue(target)), jump);
    assert s1 == st.(code := st.code + [] + [Val(l.values[i].value)] + [Val(SymbolValue(target)), Op(jump)]);
  }

  /// `and` over plain operands: each operand and a `JumpZero` to the false
  /// label, then 1 and a jump past the false label, which pushes 0. The two
  /// labels are the next two numbers of the counter.
  lemma AndLeaves(l: List, st: St)
    requires |l.values| >= 3 && LeafOperands(l, 1)
    ensures StmtAnd(l, st)
         == (var after, falseLabel := LabelName(st.nextLabel), LabelName(st.nextLabel + 1);
             st.(nextLabel := st.nextLabel + 2,
                 code := st.code + Interleave(l, 1, [], [Val(SymbolValue(falseLabel)), Op(JumpZero)])
                         + [Val(IntValue(1)), Val(SymbolValue(after)), Op(Jump),
                            Lbl(falseLabel), Val(IntValue(0)), Lbl(after)]))
  {
    ShortCircuitLeaves(l, 1, LabelName(st.nextLabel + 1), JumpZero, st.(nextLabel := st.nextLabel + 2));
  }

  /// `or` is the mirror image of `and`: `JumpNotZero` to the true label, with
  /// 0 and 1 swapped.
  lemma OrLeaves(l: List, st: St)
    requires |l.values| >= 3 && LeafOperands(l, 1)
    ensures StmtOr(l, st)
         == (var after, trueLabel := LabelName(st.nextLabel), LabelName(st.nextLabel + 1);
             st.(nextLabel := st.nextLabel + 2,
                 code := st.code + Interleave(l, 1, [], [Val(SymbolValue(trueLabel)), Op(JumpNotZero)])
                         + [Val(IntValue(0)), Val(SymbolValue(after)), Op(Jump),
                            Lbl(trueLabel), Val(IntValue(1)), Lbl(after)]))
  {
    ShortCircuitLeaves(l, 1, LabelName(st.nextLabel + 1), JumpNotZero, st.(nextLabel := st.nextLabel + 2));
  }

  /// `and`/`or` emit nothing exactly when they lack two operands; then they
  /// report one diagnostic.
  lemma ShortCircuitArity(l: List, st: St)
    requires |l.values| > 0
    ensures (StmtAnd(l, st).code == st.code) <==> |l.values| < 3
    ensures (StmtOr(l, st).code == st.code) <==> |l.values| < 3
    ensures |l.values| < 3 ==> |StmtAnd(l, st).errors| == |StmtOr(l, st).errors| == |st.errors| + 1
  {
    if |l.values| >= 3 {
      var n := st.nextLabel;
      var s := ShortCircuitOperands(l, 1, LabelName(n + 1), JumpZero, st.(nextLabel := n + 2));
      assert |StmtAnd(l, st).code| >= |s.code| + 6 >= |st.code| + 6;
      var t := ShortCircuitOperands(l, 1, LabelName(n + 1), JumpNotZero, st.(nextLabel := n + 2));
      assert |StmtOr(l, st).code| >= |t.code| + 6 >= |st.code| + 6;
    }
  }

  // ------------------------------------------------------------------------
  // Loops

  /// The state in which `while` lowers its body: both labels taken and
  /// pushed as loop targets, the start label placed, a plain condition
  /// pushed and tested.
  function WhileBodyEntry(l: List, st: St): St
    requires |l.values| == 3
  {
    var start, after := LabelName(st.nextLabel), LabelName(st.nextLabel + 1);
    st.(nextLabel := st.nextLabel + 2, continueLabels := st.continueLabels + [start], breakLabels := st.breakLabels + [after],
        code := st.code + [Lbl(start), Val(l.values[1].value), Val(SymbolValue(after)), Op(JumpZero)])
  }

  /// `while` with a plain condition, whose body emits `body` when lowered in
  /// the loop: the start label, the condition, a `JumpZero` out, the body
  /// (whose value is not popped), a jump back, the label after. The loop
  /// stacks end as they began.
  lemma WhileShape(l: List, st: St, body: seq<Instr>)
    requires |l.values| == 3 && IsLeaf(l.values[1])
    requires var e := WhileBodyEntry(l, st); ProcessValue(l.values[2], e) == e.(code := e.code + body)
    ensures StmtWhile(l, st)
         == (var start, after := LabelName(st.nextLabel), LabelName(st.nextLabel + 1);
             st.(nextLabel := st.nextLabel + 2,
                 code := st.code + [Lbl(start), Val(l.values[1].value), Val(SymbolValue(after)), Op(JumpZero)]
                         + body + [Val(SymbolValue(start)), Op(Jump), Lbl(after)]))
  {
    var start, after := LabelName(st.nextLabel), LabelName(st.nextLabel + 1);
    var s0 := st.(nextLabel := st.nextLabel + 2, continueLabels := st.continueLabels + [start], breakLabels := st.breakLabels + [after]);
    var a := AddLabel(s0, start);
    LeafLowering(l.values[1], a);
    var e := WhileBodyEntry(l, st);
    assert AddOpcode(AddValue(AddValue(a, l.values[1].value), SymbolValue(after)), JumpZero) == e;
    var s2 := e.(code := e.code + body);
    var s3 := AddLabel(AddOpcode(AddValue(s2, SymbolValue(start)), Jump), after);
    assert StmtWhile(l, st) == s3.(continueLabels := Pop(s3.continueLabels), breakLabels := Pop(s3.breakLabels));
    assert Pop(st.breakLabels + [after]) == st.breakLabels;
    assert Pop(st.continueLabels + [start]) == st.continueLabels;
  }

  /// `while` over a plain condition and body.
  lemma WhileLeaves(l: List, st: St)
    requires |l.values| == 3 && IsLeaf(l.values[1]) && IsLeaf(l.values[2])
    ensures StmtWhile(l, st)
         == (var start, after := LabelName(st.nextLabel), LabelName(st.nextLabel + 1);
             st.(nextLabel := st.nextLabel + 2,
                 code := st.code + [Lbl(start), Val(l.values[1].value), Val(SymbolValue(after)), Op(JumpZero),
                                    Val(l.values[2].value), Val(SymbolValue(start)), Op(Jump), Lbl(after)]))
  {
    LeafLowering(l.values[2], WhileBodyEntry(l, st));
    WhileShape(l, st, [Val(l.values[2].value)]);
  }

  /// The state in which `do_while` lowers its body: three labels taken, the
  /// condition and after labels pushed as loop targets, the start label placed.
  function DoWhileBodyEntry(st: St): St
  {
    var start, condition, after := LabelName(st.nextLabel), LabelName(st.nextLabel + 1), LabelName(st.nextLabel + 2);
    st.(nextLabel := st.nextLabel + 3, continueLabels := st.continueLabels + [condition], breakLabels := st.breakLabels + [after],
        code := st.code + [Lbl(start)])
  }

  /// `do_while` with a plain condition, whose body emits `body` when lowered
  /// in the loop: the start label, the body, a `StackPop` of its value, the
  /// condition label, the condition, a `JumpZero` out, a jump back, the label
  /// after.
  lemma DoWhileShape(l: List, st: St, body: seq<Instr>)
    requires |l.values| == 3 && IsLeaf(l.values[2])
    requires var e := DoWhileBodyEntry(st); ProcessValue(l.values[1], e) == e.(code := e.code + body)
    ensures StmtDoWhile(l, st)
         == (var start, condition, after := LabelName(st.nextLabel), LabelName(st.nextLabel + 1), LabelName(st.nextLabel + 2);
             st.(nextLabel := st.nextLabel + 3,
                 code := st.code + [Lbl(start)] + body
                         + [Op(StackPop), Lbl(condition), Val(l.values[2].value), Val(SymbolValue(after)), Op(JumpZero),
                            Val(SymbolValue(start)), Op(Jump), Lbl(after)]))
  {
    var start, condition, after := LabelName(st.nextLabel), LabelName(st.nextLabel + 1), LabelName(st.nextLabel + 2);
    var s0 := st.(nextLabel := st.nextLabel + 3, continueLabels := st.continueLabels + [condition], breakLabels := st.breakLabels + [after]);
    var e := DoWhileBodyEntry(st);
    assert AddLabel(s0, start) == e;
    var b := AddLabel(AddOpcode(e.(code := e.code + body), StackPop), condition);
    LeafLowering(l.values[2], b);
    var s2 := AddValue(b, l.values[2].value);
    var s3 := AddLabel(AddOpcode(AddValue(AddOpcode(AddValue(s2, SymbolValue(after)), JumpZero), SymbolValue(start)), Jump), after);
    assert StmtDoWhile(l, st) == s3.(continueLabels := Pop(s3.continueLabels), breakLabels := Pop(s3.breakLabels));
    assert Pop(st.breakLabels + [after]) == st.breakLabels;
    assert Pop(st.continueLabels + [condition]) == st.continueLabels;
  }

  /// `do_while` over a plain body and condition.
  lemma DoWhileLeaves(l: List, st: St)
    requires |l.values| == 3 && IsLeaf(l.values[1]) && IsLeaf(l.values[2])
    ensures StmtDoWhile(l, st)
         == (var start, condition, after := LabelName(st.nextLabel), LabelName(st.nextLabel + 1), LabelName(st.nextLabel + 2);
             st.(nextLabel := st.nextLabel + 3,
                 code := st.code + [Lbl(start), Val(l.values[1].value), Op(StackPop), Lbl(condition),
                                    Val(l.values[2].value), Val(SymbolValue(after)), Op(JumpZero),
                                    Val(SymbolValue(start)), Op(Jump), Lbl(after)]))
  {
    LeafLowering(l.values[1], DoWhileBodyEntry(st));
    DoWhileShape(l, st, [Val(l.values[1].value)]);
  }

  /// `break` and `continue` jump to the innermost loop's target, and emit
  /// nothing exactly when they have an operand or no loop encloses them.
  lemma BreakContinueTargets(l: List, st: St)
    requires |l.values| > 0
    ensures StmtBreak(l, st).code == st.code <==> |l.values| != 1 || |st.breakLabels| == 0
    ensures StmtContinue(l, st).code == st.code <==> |l.values| != 1 || |st.continueLabels| == 0
    ensures |l.values| == 1 && |st.breakLabels| > 0 ==>
              StmtBreak(l, st) == st.(code := st.code + [Val(SymbolValue(st.breakLabels[|st.breakLabels| - 1])), Op(Jump)])
    ensures |l.values| == 1 && |st.continueLabels| > 0 ==>
              StmtContinue(l, st) == st.(code := st.code + [Val(SymbolValue(st.continueLabels[|st.continueLabels| - 1])), Op(Jump)])
    ensures |l.values| != 1 ==> StmtBreak(l, st) == AddError(st, Arity("break"), l.values[1].origin)
    ensures |l.values| != 1 ==> StmtContinue(l, st) == AddError(st, Arity("continue"), l.values[1].origin)
  {
    if |l.values| == 1 && |st.breakLabels| > 0 {
      assert |StmtBreak(l, st).code| == |st.code| + 2;
    }
    if |l.values| == 1 && |st.continueLabels| > 0 {
      assert |StmtContinue(l, st).code| == |st.code| + 2;
    }
  }

  /// `(break)` as an expression inside a loop: a jump to the innermost
  /// loop's exit, then the placeholder of a statement without a value.
  lemma BreakStatement(body: List, st: St)
    requires |body.values| == 1 && |st.breakLabels| > 0
    requires body.values[0].value.kind == Reserved && body.values[0].value.text == "break"
    ensures ProcessList(body, st)
         == st.(code := st.code + [Val(SymbolValue(st.breakLabels[|st.breakLabels| - 1])), Op(Jump), Op(PushNone)])
  {
    ReservedLookup("break", 3);
    assert S.StatementTypes[3] == S.StatementType("break", S.StmtBreak, false);
    assert HandleReservedStmt(body, st) == AddOpcode(Dispatch(S.StmtBreak, body, st), PushNone);
    assert ProcessList(body, st) == HandleReservedStmt(body, st);
    assert Dispatch(S.StmtBreak, body, st) == StmtBreak(body, st);
    assert S.CheckListSize(body, 1, 1);
  }

  /// `(continue)` likewise jumps to the innermost loop's continue target.
  lemma ContinueStatement(body: List, st: St)
    requires |body.values| == 1 && |st.continueLabels| > 0
    requires body.values[0].value.kind == Reserved && body.values[0].value.text == "continue"
    ensures ProcessList(body, st)
         == st.(code := st.code + [Val(SymbolValue(st.continueLabels[|st.continueLabels| - 1])), Op(Jump), Op(PushNone)])
  {
    ReservedLookup("continue", 4);
    assert S.StatementTypes[4] == S.StatementType("continue", S.StmtContinue, false);
    assert HandleReservedStmt(body, st) == AddOpcode(Dispatch(S.StmtContinue, body, st), PushNone);
    assert ProcessList(body, st) == HandleReservedStmt(body, st);
    assert Dispatch(S.StmtContinue, body, st) == StmtContinue(body, st);
    assert S.CheckListSize(body, 1, 1);
  }

  /// `(while c (break))`: the `break` jumps to the label placed after the
  /// loop, and its statement's placeholder `PushNone` follows the jump.
  lemma BreakInWhileBody(l: List, st: St)
    requires |l.values| == 3 && IsLeaf(l.values[1])
    requires l.values[2].value.kind == Expression && |l.values[2].sublist.values| == 1
    requires var w := l.values[2].sublist.values[0].value; w.kind == Reserved && w.text == "break"
    ensures StmtWhile(l, st)
         == (var start, after := LabelName(st.nextLabel), LabelName(st.nextLabel + 1);
             st.(nextLabel := st.nextLabel + 2,
                 code := st.code + [Lbl(start), Val(l.values[1].value), Val(SymbolValue(after)), Op(JumpZero)]
                         + [Val(SymbolValue(after)), Op(Jump), Op(PushNone)]
                         + [Val(SymbolValue(start)), Op(Jump), Lbl(after)]))
  {
    var e := WhileBodyEntry(l, st);
    BreakStatement(l.values[2].sublist, e);
    assert ProcessValue(l.values[2], e) == ProcessList(l.values[2].sublist, e);
    WhileShape(l, st, [Val(SymbolValue(LabelName(st.nextLabel + 1))), Op(Jump), Op(PushNone)]);
  }

  /// `(do_while (continue) c)`: the `continue` jumps to the condition label,
  /// not to the start, so the condition is still tested.
  lemma ContinueInDoWhileBody(l: List, st: St)
    requires |l.values| == 3 && IsLeaf(l.values[2])
    requires l.values[1].value.kind == Expression && |l.values[1].sublist.values| == 1
    requires var w := l.values[1].sublist.values[0].value; w.kind == Reserved && w.text == "continue"
    ensures StmtDoWhile(l, st)
         == (var start, condition, after := LabelName(st.nextLabel), LabelName(st.nextLabel + 1), LabelName(st.nextLabel + 2);
             st.(nextLabel := st.nextLabel + 3,
                 code := st.code + [Lbl(start)] + [Val(SymbolValue(condition)), Op(Jump), Op(PushNone)]
                         + [Op(StackPop), Lbl(condition), Val(l.values[2].value), Val(SymbolValue(after)), Op(JumpZero),
                            Val(SymbolValue(start)), Op(Jump), Lbl(after)]))
  {
    var e := DoWhileBodyEntry(st);
    ContinueStatement(l.values[1].sublist, e);
    assert ProcessValue(l.values[1], e) == ProcessList(l.values[1].sublist, e);
    DoWhileShape(l, st, [Val(SymbolValue(LabelName(st.nextLabel + 1))), Op(Jump), Op(PushNone)]);
  }

  // ------------------------------------------------------------------------
  // Conditionals

  /// `if` over plain operands: the condition, a `JumpZero` to the else
  /// label, the then-branch, a jump past the else-branch, the else label,
  /// the else-branch or 0 when there is none, the label after.
  lemma IfLeaves(l: List, st: St)
    requires 3 <= |l.values| <= 4 && LeafOperands(l, 1)
    ensures StmtIf(l, st)
         == (var after, elseLabel := LabelName(st.nextLabel), LabelName(st.nextLabel + 1);
             st.(nextLabel := st.nextLabel + 2,
                 code := st.code + [Val(l.values[1].value), Val(SymbolValue(elseLabel)), Op(JumpZero),
                                    Val(l.values[2].value), Val(SymbolValue(after)), Op(Jump), Lbl(elseLabel),
                                    Val(if |l.values| == 4 then l.values[3].value else IntValue(0)), Lbl(after)]))
  {
    var after, elseLabel := LabelName(st.nextLabel), LabelName(st.nextLabel + 1);
    var a := st.(nextLabel := st.nextLabel + 2);
    assert IsLeaf(l.values[1]) && IsLeaf(l.values[2]);
    LeafLowering(l.values[1], a);
    var b := AddOpcode(AddValue(AddValue(a, l.values[1].value), SymbolValue(elseLabel)), JumpZero);
    LeafLowering(l.values[2], b);
    var s3 := AddLabel(AddOpcode(AddValue(AddValue(b, l.values[2].value), SymbolValue(after)), Jump), elseLabel);
    if |l.values| == 4 {
      assert IsLeaf(l.values[3]);
      LeafLowering(l.values[3], s3);
      assert StmtIf(l, st) == AddLabel(AddValue(s3, l.values[3].value), after);
    } else {
      assert StmtIf(l, st) == AddLabel(AddValue(s3, IntValue(0)), after);
    }
  }

  /// `and`, `or`, `if` and `while` take two numbers from the label counter
  /// and `do_while` three, before any nested operand takes its own.
  lemma LabelCounter(l: List, st: St)
    requires |l.values| > 0
    ensures |l.values| >= 3 ==> StmtAnd(l, st).nextLabel >= st.nextLabel + 2 && StmtOr(l, st).nextLabel >= st.nextLabel + 2
    ensures 3 <= |l.values| <= 4 ==> StmtIf(l, st).nextLabel >= st.nextLabel + 2
    ensures |l.values| == 3 ==> StmtWhile(l, st).nextLabel >= st.nextLabel + 2 && StmtDoWhile(l, st).nextLabel >= st.nextLabel + 3
  {
  }

  // ------------------------------------------------------------------------
  // Variables

  /// `(inc x)` emits exactly what `(inc x 1)` does: the amount, the
  /// variable's value, the operation, a reference to the variable's slot and
  /// `Store`.
  lemma AdjustDefaultIsOne(head: ListValue, x: ListValue, one: ListValue, op: OpCode, st: St)
    requires x.value.kind == LocalVar && one.value == IntValue(1)
    ensures AdjustVariable(ListOf([head, x]), op, st) == AdjustVariable(ListOf([head, x, one]), op, st)
    ensures AdjustVariable(ListOf([head, x]), op, st)
         == st.(code := st.code + [Val(IntValue(1)), Val(x.value), Op(op), Val(VarRefValue(x.value.num)), Op(Store)])
  {
  }

  /// `inc`/`dec` emit nothing exactly when the list size is outside 2..3 or
  /// the target is not a local variable, and then report one diagnostic.
  lemma AdjustRejected(l: List, op: OpCode, st: St)
    requires |l.values| > 0
    ensures (AdjustVariable(l, op, st).code == st.code) <==> !(2 <= |l.values| <= 3) || l.values[1].value.kind != LocalVar
    ensures !(2 <= |l.values| <= 3) ==> AdjustVariable(l, op, st) == AddError(st, Arity("inc"), l.values[0].origin)
    ensures 2 <= |l.values| <= 3 && l.values[1].value.kind != LocalVar ==>
              AdjustVariable(l, op, st) == AddError(st, NotLocalVariable("inc"), l.values[1].origin)
  {
    if 2 <= |l.values| <= 3 && l.values[1].value.kind == LocalVar {
      ChildDepth(l, 1);
      var s := if |l.values| == 3 then ProcessValue(l.values[2], st) else AddValue(st, IntValue(1));
      var s1 := ProcessValue(l.values[1], s);
      assert |AdjustVariable(l, op, st).code| == |s1.code| + 3;
    }
  }

  // ------------------------------------------------------------------------
  // Containers

  /// What appends the value on top of the stack to the container below it.
  function AppendSteps(append: OpCode): seq<Instr>
  {
    [Val(IntValue(0)), Val(IntValue(1)), Op(StackSwap), Op(append)]
  }

  /// Each plain operand of `list`/`string` is appended to the container left
  /// on the stack: duplicate it, push the operand, then 0 and 1, swap, append.
  lemma {:induction false} ContainerLeaves(l: List, i: nat, append: OpCode, st: St)
    requires 1 <= i <= |l.values| && LeafOperands(l, i)
    ensures ContainerOperands(l, i, append, st)
         == st.(code := st.code + Interleave(l, i, [Op(StackDup)], AppendSteps(append)))
    decreases |l.values| - i
  {
    if i < |l.values| {
      var s1 := st.(code := st.code + [Op(StackDup)] + [Val(l.values[i].value)] + AppendSteps(append));
      ContainerStep(l, i, append, st);
      ContainerLeaves(l, i + 1, append, s1);
      InterleaveCons(st.code, l, i, [Op(StackDup)], AppendSteps(append));
    } else {
      assert st.code + Interleave(l, i, [Op(StackDup)], AppendSteps(append)) == st.code;
    }
  }

  lemma ContainerStep(l: List, i: nat, append: OpCode, st: St)
    requires 1 <= i < |l.values| && IsLeaf(l.values[i])
    ensures ContainerOperands(l, i, append, st)
         == ContainerOperands(l, i + 1, append, st.(code := st.code + [Op(StackDup)] + [Val(l.values[i].value)] + AppendSteps(append)))
  {
    var d := AddOpcode(st, StackDup);
    LeafLowering(l.values[i], d);
    var s1 := AddOpcode(AddOpcode(AddValue(AddValue(AddValue(d, l.values[i].value), IntValue(0)), IntValue(1)), StackSwap), append);
    assert s1 == st.(code := st.code + [Op(StackDup)] + [Val(l.values[i].value)] + AppendSteps(append));
  }

  /// A container of kind `kind` is created, then every plain operand is
  /// appended in order.
  lemma ContainerShape(l: List, kind: ValueType, append: OpCode, st: St)
    requires |l.values| > 0 && LeafOperands(l, 1)
    ensures NewContainer(l, kind, append, st)
         == st.(code := st.code + [Val(Value(TypeId, TypeNumber(kind), "", NullOpcode)), Op(New)]
                        + Interleave(l, 1, [Op(StackDup)], AppendSteps(append)))
  {
    var created := [Val(Value(TypeId, TypeNumber(kind), "", NullOpcode)), Op(New)];
    var s := AddOpcode(AddValue(st, Value(TypeId, TypeNumber(kind), "", NullOpcode)), New);
    assert s == st.(code := st.code + created);
    ContainerLeaves(l, 1, append, s);
  }

  /// `(list a ...)` creates a list (kind tag 3) and appends every operand in
  /// order.
  lemma ListShape(l: List, st: St)
    requires |l.values| > 0 && LeafOperands(l, 1)
    ensures StmtList(l, st)
         == st.(code := st.code + [Val(Value(TypeId, 3, "", NullOpcode)), Op(New)]
                        + Interleave(l, 1, [Op(StackDup)], AppendSteps(ListPush)))
  {
    ContainerShape(l, ValueType.List, ListPush, st);
  }

  /// `(string a ...)` does the same with a string (kind tag 2).
  lemma StringShape(l: List, st: St)
    requires |l.values| > 0 && LeafOperands(l, 1)
    ensures StmtString(l, st)
         == st.(code := st.code + [Val(Value(TypeId, 2, "", NullOpcode)), Op(New)]
                        + Interleave(l, 1, [Op(StackDup)], AppendSteps(StringAppend)))
  {
    ContainerShape(l, ValueType.String, StringAppend, st);
  }

  // ------------------------------------------------------------------------
  // Printing

  /// Each plain operand is printed by a `Say` right after it is pushed.
  lemma {:induction false} SayLeaves(l: List, i: nat, st: St)
    requires 1 <= i <= |l.values| && LeafOperands(l, i)
    ensures SayOperands(l, i, st) == st.(code := st.code + Interleave(l, i, [], [Op(Say)]))
    decreases |l.values| - i
  {
    if i < |l.values| {
      SayStep(l, i, st);
      SayLeaves(l, i + 1, st.(code := st.code + [] + [Val(l.values[i].value)] + [Op(Say)]));
      InterleaveCons(st.code, l, i, [], [Op(Say)]);
    } else {
      assert st.code + Interleave(l, i, [], [Op(Say)]) == st.code;
    }
  }

  lemma SayStep(l: List, i: nat, st: St)
    requires 1 <= i < |l.values| && IsLeaf(l.values[i])
    ensures SayOperands(l, i, st) == SayOperands(l, i + 1, st.(code := st.code + [] + [Val(l.values[i].value)] + [Op(Say)]))
  {
    LeafLowering(l.values[i], st);
    assert AddOpcode(AddValue(st, l.values[i].value), Say) == st.(code := st.code + [] + [Val(l.values[i].value)] + [Op(Say)]);
  }

  /// `print` needs an operand; `print_uf` prints its first operand with the
  /// first letter upper-cased and the rest as `print` does.
  lemma PrintShapes(l: List, st: St)
    requires |l.values| > 0 && LeafOperands(l, 1)
    ensures |l.values| == 1 ==> StmtPrint(l, st) == AddError(st, Arity("print"), l.values[0].origin)
    ensures |l.values| == 1 ==> StmtPrintUf(l, st) == AddError(st, Arity("print_uf"), l.values[0].origin)
    ensures |l.values| > 1 ==> StmtPrint(l, st) == st.(code := st.code + Interleave(l, 1, [], [Op(Say)]))
    ensures |l.values| > 1 ==>
              StmtPrintUf(l, st) == st.(code := st.code + [Val(l.values[1].value), Op(SayUCFirst)] + Interleave(l, 2, [], [Op(Say)]))
  {
    if |l.values| > 1 {
      SayLeaves(l, 1, st);
      assert IsLeaf(l.values[1]);
      LeafLowering(l.values[1], st);
      var s := AddOpcode(AddValue(st, l.values[1].value), SayUCFirst);
      SayLeaves(l, 2, s);
    }
  }

  /// A list headed by a plain string prints every value of the list, the
  /// string first, and then leaves `PushNone`'s placeholder.
  lemma StringHeadPrints(l: List, st: St)
    requires |l.values| > 0 && l.values[0].value.kind == String && LeafOperands(l, 1)
    ensures ProcessList(l, st) == st.(code := st.code + Interleave(l, 0, [], [Op(Say)]) + [Op(PushNone)])
  {
    var printed := WithPrintHead(l);
    assert LeafOperands(printed, 1) by {
      forall k | 1 <= k < |printed.values|
        ensures IsLeaf(printed.values[k])
      {
        assert printed.values[k] == l.values[k - 1];
      }
    }
    SayLeaves(printed, 1, st);
    InterleaveShift(l, printed.values[0], 0, [], [Op(Say)]);
    assert printed == ListOf([printed.values[0]] + l.values);
  }

  // ------------------------------------------------------------------------
  // Sequencing, return and options

  /// Plain operands of `proc` in order, the value of every one but the last
  /// popped.
  lemma {:induction false} ProcLeaves(l: List, i: nat, st: St)
    requires 1 <= i < |l.values| && LeafOperands(l, i)
    ensures ProcOperands(l, i, st)
         == st.(code := st.code + Interleave(ListOf(l.values[..|l.values| - 1]), i, [], [Op(StackPop)])
                        + [Val(l.values[|l.values| - 1].value)])
    decreases |l.values| - i
  {
    var front := ListOf(l.values[..|l.values| - 1]);
    var last := [Val(l.values[|l.values| - 1].value)];
    ProcStep(l, i, st);
    if i == |l.values| - 1 {
      assert Interleave(front, i, [], [Op(StackPop)]) == [];
    } else {
      assert front.values[i] == l.values[i];
      ProcLeaves(l, i + 1, st.(code := st.code + [] + [Val(front.values[i].value)] + [Op(StackPop)]));
      InterleaveCons(st.code, front, i, [], [Op(StackPop)]);
    }
  }

  lemma ProcStep(l: List, i: nat, st: St)
    requires 1 <= i < |l.values| && IsLeaf(l.values[i])
    ensures i < |l.values| - 1 ==>
              ProcOperands(l, i, st) == ProcOperands(l, i + 1, st.(code := st.code + [] + [Val(l.values[i].value)] + [Op(StackPop)]))
    ensures i == |l.values| - 1 ==> ProcOperands(l, i, st) == AddValue(st, l.values[i].value)
  {
    LeafLowering(l.values[i], st);
    assert AddOpcode(AddValue(st, l.values[i].value), StackPop) == st.(code := st.code + [] + [Val(l.values[i].value)] + [Op(StackPop)]);
  }

  /// `return` pushes its operand, or `None` when it has none, then `Return`;
  /// with more than one operand it reports and emits nothing.
  lemma ReturnShapes(l: List, st: St)
    requires |l.values| > 0 && LeafOperands(l, 1)
    ensures |l.values| == 1 ==> StmtReturn(l, st) == st.(code := st.code + [Val(NoneValue()), Op(Return)])
    ensures |l.values| == 2 ==> StmtReturn(l, st) == st.(code := st.code + [Val(l.values[1].value), Op(Return)])
    ensures |l.values| > 2 ==> StmtReturn(l, st) == AddError(st, Arity("return"), l.values[0].origin)
  {
    if |l.values| == 2 {
      assert IsLeaf(l.values[1]);
    }
  }

  /// The value `option` pushes for slot `i`: the operand, or `None`.
  function OptionSlot(l: List, i: nat): Value
  {
    if i < |l.values| then l.values[i].value else NoneValue()
  }

  /// `option` with one to four plain operands pushes exactly four values,
  /// absent operands as `None`, then `AddOption`.
  lemma OptionShape(l: List, st: St)
    requires 2 <= |l.values| <= 5 && LeafOperands(l, 1)
    ensures StmtOption(l, st)
         == st.(code := st.code + [Val(OptionSlot(l, 1)), Val(OptionSlot(l, 2)), Val(OptionSlot(l, 3)),
                                   Val(OptionSlot(l, 4)), Op(AddOption)])
  {
    forall i: nat, s: St | 1 <= i
      ensures OptionalOperand(l, i, s) == AddValue(s, OptionSlot(l, i))
    {
      if i < |l.values| {
        assert IsLeaf(l.values[i]);
      }
    }
  }

  // ------------------------------------------------------------------------
  // Inline assembly

  /// The kinds `asm` pushes as they are.
  predicate IsAsmPlain(lv: ListValue)
  {
    lv.value.kind in {None, Integer, String, List, Map, Function, Object, Property, TypeId, LocalVar}
  }

  /// Diagnostics never stop an `asm` body: the code it emits does not
  /// depend on the diagnostics recorded before or during it, and those only
  /// grow.
  lemma {:induction false} AsmIgnoresErrors(l: List, i: nat, st: St, st': St)
    requires 1 <= i <= |l.values| + 1
    requires st'.code == st.code
    ensures AsmOperands(l, i, st).code == AsmOperands(l, i, st').code
    decreases |l.values| + 1 - i
  {
    if i < |l.values| {
      assert AsmEffect(l, i, st).code == AsmEffect(l, i, st').code;
      AsmIgnoresErrors(l, AsmNext(l, i), AsmEffect(l, i, st), AsmEffect(l, i, st'));
    }
  }

  /// Plain operands of `asm` are pushed in order, with no opcode added.
  lemma {:induction false} AsmPlainOperands(l: List, i: nat, st: St)
    requires 1 <= i <= |l.values|
    requires forall k :: i <= k < |l.values| ==> IsAsmPlain(l.values[k])
    ensures AsmOperands(l, i, st) == st.(code := st.code + Interleave(l, i, [], []))
    decreases |l.values| - i
  {
    if i < |l.values| {
      assert IsAsmPlain(l.values[i]);
      assert AsmNext(l, i) == i + 1;
      assert AsmEffect(l, i, st) == st.(code := st.code + [] + [Val(l.values[i].value)] + []);
      assert AsmOperands(l, i, st) == AsmOperands(l, i + 1, st.(code := st.code + [] + [Val(l.values[i].value)] + []));
      AsmPlainOperands(l, i + 1, st.(code := st.code + [] + [Val(l.values[i].value)] + []));
      InterleaveCons(st.code, l, i, [], []);
    } else {
      assert st.code + Interleave(l, i, [], []) == st.code;
    }
  }

  /// `(asm op)` with an opcode that may not be written explicitly: the
  /// diagnostic is recorded and the opcode is still emitted.
  lemma AsmForbiddenStillEmits(l: List, st: St)
    requires |l.values| == 2 && l.values[1].value.kind == Opcode && ForbidAsm in l.values[1].value.opcode.permissions
    ensures StmtAsm(l, st)
         == st.(code := st.code + [Op(l.values[1].value.opcode.code)],
                errors := st.errors + [Error(OpcodeNotExplicit, l.values[1].origin)])
  {
    assert AsmOperands(l, 1, st) == AsmOperands(l, 2, AsmEffect(l, 1, st));
  }

  /// A colon is never accepted on its own: right after `asm` it is an
  /// unexpected value, later an invalid label; either way nothing is emitted.
  lemma AsmStrayColon(l: List, i: nat, st: St)
    requires 1 <= i < |l.values| && l.values[i].value.kind == Colon
    ensures AsmEffect(l, i, st) == AddError(st, if i == 1 then UnexpectedAsmValue else InvalidLabel, l.values[i].origin)
  {
  }

  /// A symbol followed by a colon places a label of that name and the colon
  /// is consumed with it; a symbol alone is pushed as a symbol.
  lemma AsmSymbols(l: List, i: nat, st: St)
    requires 1 <= i < |l.values| && l.values[i].value.kind == Symbol
    ensures i + 1 < |l.values| && l.values[i + 1].value.kind == Colon ==>
              AsmEffect(l, i, st) == AddLabel(st, l.values[i].value.text) && AsmNext(l, i) == i + 2
    ensures !(i + 1 < |l.values| && l.values[i + 1].value.kind == Colon) ==>
              AsmEffect(l, i, st) == AddValue(st, SymbolValue(l.values[i].value.text)) && AsmNext(l, i) == i + 1
  {
  }

  /// `(asm * x)` with a local variable `x` pushes a reference to `x`'s slot
  /// and leaves the list with `x` retagged as a reference.
  lemma AsmIndirection(l: List, st: St)
    requires |l.values| == 3 && l.values[1].value.kind == Indirection && l.values[2].value.kind == LocalVar
    ensures StmtAsm(l, st) == AddValue(st, l.values[2].value.(kind := VarRef))
    ensures AsmRetag(l, 1).values[2].value.kind == VarRef && AsmRetag(l, 1).values[..2] == l.values[..2]
  {
    assert AsmOperands(l, 1, st) == AsmOperands(l, 3, AsmEffect(l, 1, st));
    var l' := RetagStep(l, 1);
    assert AsmRetag(l, 1) == AsmRetag(l', 3) == l';
  }

  // ------------------------------------------------------------------------
  // Values and list heads

  /// A value that cannot stand as an operand is reported and nothing is
  /// emitted; a nested expression emits its list's lowering.
  lemma ValueErrors(lv: ListValue, st: St)
    ensures lv.value.kind in {Reserved, Indirection, Opcode} ==> ProcessValue(lv, st) == AddError(st, InvalidExpressionValue, lv.origin)
    ensures lv.value.kind == Symbol ==> ProcessValue(lv, st) == AddError(st, UndefinedSymbol, lv.origin)
    ensures lv.value.kind == Expression ==> ProcessValue(lv, st) == ProcessList(lv.sublist, st)
  {
  }

  /// An empty list emits nothing; a list headed by a symbol or by a kind
  /// that cannot start an expression is reported at its head.
  lemma ListHeads(l: List, st: St)
    ensures |l.values| == 0 ==> ProcessList(l, st) == st
    ensures |l.values| > 0 && l.values[0].value.kind == Symbol ==>
              ProcessList(l, st) == AddError(st, UnrecognizedName, l.values[0].origin)
    ensures |l.values| > 0 && l.values[0].value.kind in {None, Integer, List, Map, Object, Property, TypeId, VarRef, Colon, Indirection} ==>
              ProcessList(l, st) == AddError(st, InvalidExpressionHead, l.values[0].origin)
  {
  }
}
