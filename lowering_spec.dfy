/// The lowering pass as pure functions of the state it reads and writes.
/// Each function gives the state after the source's routine of the same name,
/// from the state before it; the imperative model in module Lowering is
/// proved to produce exactly these states.
///
/// Every function promises `Grows(st, r)`: the stream and the diagnostics only
/// grow, the label counter never goes back and the loop-target stacks end as
/// they began, whatever nested lists are lowered in between.

module LoweringSpec {
  import opened Values
  import opened Emission
  import S = Statements

  /// The stack without its most recently pushed entry.
  function Pop(s: seq<string>): (r: seq<string>)
    requires |s| > 0
    ensures r + [s[|s| - 1]] == s
  {
    s[..|s| - 1]
  }

  /// The origin reported when `and` or `or` lacks operands: the first
  /// operand's, or the head's when there is none (see the findings on
  /// reading past the end of the list).
  function FirstOperandOrigin(l: List): Origin
    requires |l.values| > 0
  {
    if |l.values| > 1 then l.values[1].origin else l.values[0].origin
  }

  /// The list a string-headed expression is rewritten to: an implicit
  /// `print` reserved word in front of the original values.
  function WithPrintHead(l: List): (r: List)
    requires |l.values| > 0
    ensures |r.values| == |l.values| + 1 && r.values[1..] == l.values
    ensures r.values[0].value.kind == Reserved && r.values[0].value.text == "print"
  {
    ListOf([ListValue(l.values[0].origin, Value(Reserved, 0, "print", NullOpcode), EmptyList)] + l.values)
  }

  /// `opcode->inputs + 1` as the source's unsigned 32-bit variable holds it.
  function WantedOperandCount(op: OpcodeDef): nat
  {
    (op.inputs + 1) % 0x1_0000_0000
  }

  // ------------------------------------------------------------------------
  // Dispatch

  function ProcessValue(lv: ListValue, st: St): (r: St)
    ensures Grows(st, r)
    decreases Depth(lv.sublist), 4, 0
  {
    match lv.value.kind
    case Reserved | Indirection | Opcode => AddError(st, InvalidExpressionValue, lv.origin)
    case Symbol => AddError(st, UndefinedSymbol, lv.origin)
    case Expression => ProcessList(lv.sublist, st)
    case _ => AddValue(st, lv.value)
  }

  function ProcessList(l: List, st: St): (r: St)
    ensures Grows(st, r)
    decreases Depth(l), 3, 0
  {
    if |l.values| == 0 then st
    else
      var head := l.values[0];
      match head.value.kind
      case Function | LocalVar | Expression => HandleCallStmt(l, st)
      case Opcode => HandleAsmStmt(l, st)
      case String =>
        var printed := WithPrintHead(l);
        PrependLeafDepth(l, printed.values[0]);
        assert printed.values[1..] == l.values;
        AddOpcode(StmtPrint(printed, st), PushNone)
      case Reserved => HandleReservedStmt(l, st)
      case Symbol => AddError(st, UnrecognizedName, head.origin)
      case _ => AddError(st, InvalidExpressionHead, head.origin)
  }

  // ------------------------------------------------------------------------
  // Calls and implicit opcodes

  function HandleCallStmt(l: List, st: St): (r: St)
    requires |l.values| > 0
    ensures Grows(st, r)
    decreases Depth(l), 1, 0
  {
    var (s, stopped) := CallOperands(l, |l.values| - 1, st);
    if stopped then s
    else
      var func := l.values[0];
      var s1 := AddValue(s, IntValue(|l.values| - 1));
      ChildDepth(l, 0);
      var s2 := if func.value.kind == Expression then ProcessList(func.sublist, s1) else AddValue(s1, func.value);
      AddOpcode(s2, Call)
  }

  /// Operands `i` down to 1 of a call; the flag says the loop returned early
  /// because diagnostics existed after lowering a nested expression.
  function CallOperands(l: List, i: nat, st: St): (r: (St, bool))
    requires i < |l.values|
    ensures Grows(st, r.0)
    ensures r.1 ==> HasErrors(r.0)
    decreases Depth(l), 0, i
  {
    if i == 0 then (st, false)
    else
      var v := l.values[i];
      if v.value.kind == Expression then
        ChildDepth(l, i);
        var s := ProcessList(v.sublist, st);
        if HasErrors(s) then (s, true) else CallOperands(l, i - 1, s)
      else
        CallOperands(l, i - 1, AddValue(st, v.value))
  }

  function HandleAsmStmt(l: List, st: St): (r: St)
    requires |l.values| > 0
    ensures Grows(st, r)
    decreases Depth(l), 1, 0
  {
    var head := l.values[0];
    if head.value.kind != Opcode then AddError(st, ExpectedOpcode, head.origin)
    else
      var op := head.value.opcode;
      var wanted := WantedOperandCount(op);
      if ForbidExpression in op.permissions then AddError(st, OpcodeNotExpression, head.origin)
      else if wanted < 255 && !S.CheckListSize(l, wanted, wanted) then AddError(st, OperandCount, head.origin)
      else
        var (s, stopped) := OpcodeOperands(l, |l.values| - 1, op.code, st);
        if stopped then s
        else
          var s1 := AddOpcode(s, op.code);
          if op.outputs <= 0 then AddValue(s1, NoneValue()) else s1
  }

  /// The value a `Store`/`GetOption` opcode's first operand is lowered to, or
  /// nothing when it is not a valid store target.
  function StoreTarget(v: ListValue, code: OpCode): (r: seq<Value>)
    ensures |r| <= 1
  {
    if v.value.kind == None && code == GetOption then [NoneValue()]
    else if v.value.kind != LocalVar then []
    else [VarRefValue(v.value.num)]
  }

  /// Operands `i` down to 1 of an implicit opcode.
  function OpcodeOperands(l: List, i: nat, code: OpCode, st: St): (r: (St, bool))
    requires i < |l.values|
    ensures Grows(st, r.0)
    ensures r.1 ==> HasErrors(r.0)
    decreases Depth(l), 0, i
  {
    if i == 0 then (st, false)
    else
      var v := l.values[i];
      if i == 1 && (code == Store || code == GetOption) then
        var target := StoreTarget(v, code);
        var s := if target == [] then AddError(st, InvalidStoreTarget, v.origin) else AddValue(st, target[0]);
        OpcodeOperands(l, i - 1, code, s)
      else if v.value.kind == Expression then
        ChildDepth(l, i);
        var s := ProcessList(v.sublist, st);
        if HasErrors(s) then (s, true) else OpcodeOperands(l, i - 1, code, s)
      else
        OpcodeOperands(l, i - 1, code, AddValue(st, v.value))
  }

  // ------------------------------------------------------------------------
  // Reserved words

  function HandleReservedStmt(l: List, st: St): (r: St)
    requires |l.values| > 0
    ensures Grows(st, r)
    decreases Depth(l), 2, 0
  {
    var k := S.FindStatement(l.values[0].value.text, 0);
    if k == |S.StatementTypes| || S.StatementTypes[k].handler == S.NoHandler then
      AddError(st, UnknownCommand, l.values[0].origin)
    else
      var entry := S.StatementTypes[k];
      var s := Dispatch(entry.handler, l, st);
      if entry.hasResult then s else AddOpcode(s, PushNone)
  }

  function Dispatch(h: S.Handler, l: List, st: St): (r: St)
    requires |l.values| > 0 && h != S.NoHandler
    ensures Grows(st, r)
    decreases Depth(l), 1, 1
  {
    match h
    case StmtAnd => StmtAnd(l, st)
    case StmtAsm => StmtAsm(l, st)
    case StmtBreak => StmtBreak(l, st)
    case StmtContinue => StmtContinue(l, st)
    case StmtDec => StmtDec(l, st)
    case StmtDoWhile => StmtDoWhile(l, st)
    case StmtIf => StmtIf(l, st)
    case StmtInc => StmtInc(l, st)
    case StmtList => StmtList(l, st)
    case StmtReturn => StmtReturn(l, st)
    case StmtString => StmtString(l, st)
    case StmtOption => StmtOption(l, st)
    case StmtOr => StmtOr(l, st)
    case StmtPrint => StmtPrint(l, st)
    case StmtPrintUf => StmtPrintUf(l, st)
    case StmtProc => StmtProc(l, st)
    case StmtWhile => StmtWhile(l, st)
  }

  // ------------------------------------------------------------------------
  // Short-circuit operators

  function StmtAnd(l: List, st: St): (r: St)
    requires |l.values| > 0
    ensures Grows(st, r)
    decreases Depth(l), 1, 0
  {
    if |l.values| < 3 then AddError(st, Arity("and"), FirstOperandOrigin(l))
    else
      var s := ShortCircuitOperands(l, 1, LabelName(st.nextLabel + 1), JumpZero, st.(nextLabel := st.nextLabel + 2));
      ShortCircuitTail(s, LabelName(st.nextLabel), LabelName(st.nextLabel + 1), 1)
  }

  function StmtOr(l: List, st: St): (r: St)
    requires |l.values| > 0
    ensures Grows(st, r)
    decreases Depth(l), 1, 0
  {
    if |l.values| < 3 then AddError(st, Arity("or"), FirstOperandOrigin(l))
    else
      var s := ShortCircuitOperands(l, 1, LabelName(st.nextLabel + 1), JumpNotZero, st.(nextLabel := st.nextLabel + 2));
      ShortCircuitTail(s, LabelName(st.nextLabel), LabelName(st.nextLabel + 1), 0)
  }

  /// After the operands: push `fallValue` and jump to `after`; at `target`
  /// push the opposite truth value; then place `after`.
  function ShortCircuitTail(s: St, after: string, target: string, fallValue: int): (r: St)
    ensures Grows(s, r)
  {
    var s1 := AddOpcode(AddValue(AddValue(s, IntValue(fallValue)), SymbolValue(after)), Jump);
    AddLabel(AddValue(AddLabel(s1, target), IntValue(1 - fallValue)), after)
  }

  /// Operands `i` onwards of `and`/`or`, each followed by a conditional jump
  /// to `target`.
  function ShortCircuitOperands(l: List, i: nat, target: string, jump: OpCode, st: St): (r: St)
    requires 1 <= i <= |l.values|
    ensures Grows(st, r)
    decreases Depth(l), 0, |l.values| - i
  {
    if i == |l.values| then st
    else
      ChildDepth(l, i);
      var s := ProcessValue(l.values[i], st);
      ShortCircuitOperands(l, i + 1, target, jump, AddOpcode(AddValue(s, SymbolValue(target)), jump))
  }

  // ------------------------------------------------------------------------
  // Inline assembly

  function StmtAsm(l: List, st: St): (r: St)
    requires |l.values| > 0
    ensures Grows(st, r)
  {
    AsmOperands(l, 1, st)
  }

  /// Operands `i` onwards of an `asm` body.
  function AsmOperands(l: List, i: nat, st: St): (r: St)
    requires 1 <= i <= |l.values| + 1
    ensures Grows(st, r)
    decreases |l.values| + 1 - i
  {
    if i >= |l.values| then st
    else AsmOperands(l, AsmNext(l, i), AsmEffect(l, i, st))
  }

  /// Where the `asm` loop resumes after operand `i`: an indirection marker
  /// consumes the variable after it, and a symbol followed by a colon
  /// consumes the colon.
  function AsmNext(l: List, i: nat): (j: nat)
    requires 1 <= i < |l.values|
    ensures i < j <= i + 2 && j <= |l.values| + 1
  {
    var kind := l.values[i].value.kind;
    if kind == Indirection || (kind == Symbol && i + 1 < |l.values| && l.values[i + 1].value.kind == Colon) then i + 2
    else i + 1
  }

  /// What operand `i` of an `asm` body emits or reports.
  function AsmEffect(l: List, i: nat, st: St): (r: St)
    requires 1 <= i < |l.values|
    ensures Grows(st, r)
  {
    var lv := l.values[i];
    match lv.value.kind
    case Indirection =>
      if i + 1 >= |l.values| then AddError(st, IndirectionAtEnd, lv.origin)
      else if l.values[i + 1].value.kind != LocalVar then AddError(st, IndirectionNotLocal, lv.origin)
      else AddValue(st, l.values[i + 1].value.(kind := VarRef))
    case None | Integer | String | List | Map | Function | Object | Property | TypeId | LocalVar =>
      AddValue(st, lv.value)
    case Opcode =>
      var s := if ForbidAsm in lv.value.opcode.permissions then AddError(st, OpcodeNotExplicit, lv.origin) else st;
      AddOpcode(s, lv.value.opcode.code)
    case Symbol =>
      if i + 1 < |l.values| && l.values[i + 1].value.kind == Colon then AddLabel(st, lv.value.text)
      else AddValue(st, SymbolValue(lv.value.text))
    case Colon =>
      AddError(st, if i > 1 then InvalidLabel else UnexpectedAsmValue, lv.origin)
    case _ =>
      AddError(st, UnexpectedAsmValue, lv.origin)
  }

  /// `r` is `l` with some local variables that follow an indirection marker
  /// retagged as variable references, payload and origin kept.
  ghost predicate RetaggedFrom(l: List, r: List)
  {
    && |r.values| == |l.values|
    && forall k :: 0 <= k < |l.values| ==> RetaggedAt(l, r, k)
  }

  ghost predicate RetaggedAt(l: List, r: List, k: nat)
    requires k < |l.values| && k < |r.values|
  {
    || r.values[k] == l.values[k]
    || (&& k >= 1 && l.values[k - 1].value.kind == Indirection && l.values[k].value.kind == LocalVar
        && r.values[k] == l.values[k].(value := l.values[k].value.(kind := VarRef)))
  }

  /// The list as `asm` leaves it, from operand `i` on: every local variable
  /// that an indirection marker turned into a store target is retagged.
  function AsmRetag(l: List, i: nat): (r: List)
    requires 1 <= i <= |l.values| + 1
    ensures RetaggedFrom(l, r)
    decreases |l.values| + 1 - i
  {
    if i >= |l.values| then l
    else
      var l' := RetagStep(l, i);
      var r := AsmRetag(l', AsmNext(l, i));
      assert RetaggedFrom(l, r) by {
        forall k | 0 <= k < |l.values|
          ensures RetaggedAt(l, r, k)
        {
          assert RetaggedAt(l', r, k);
          if k != i + 1 && k != i + 2 {
            assert l'.values[k] == l.values[k];
            assert k >= 1 ==> l'.values[k - 1] == l.values[k - 1];
          }
        }
      }
      r
  }

  /// Operand `i` of an `asm` body retags the local variable after it when
  /// it is an indirection marker.
  function RetagStep(l: List, i: nat): (r: List)
    requires 1 <= i < |l.values|
    ensures |r.values| == |l.values|
    ensures forall k :: 0 <= k < |l.values| && k != i + 1 ==> r.values[k] == l.values[k]
  {
    if l.values[i].value.kind == Indirection && i + 1 < |l.values| && l.values[i + 1].value.kind == LocalVar then
      var rlv := l.values[i + 1];
      ListOf(l.values[i + 1 := rlv.(value := rlv.value.(kind := VarRef))])
    else l
  }

  // ------------------------------------------------------------------------
  // Loops

  function StmtBreak(l: List, st: St): (r: St)
    requires |l.values| > 0
    ensures Grows(st, r)
  {
    if !S.CheckListSize(l, 1, 1) then AddError(st, Arity("break"), l.values[1].origin)
    else if |st.breakLabels| == 0 then AddError(st, OutsideLoop("break"), l.values[0].origin)
    else AddOpcode(AddValue(st, SymbolValue(st.breakLabels[|st.breakLabels| - 1])), Jump)
  }

  function StmtContinue(l: List, st: St): (r: St)
    requires |l.values| > 0
    ensures Grows(st, r)
  {
    if !S.CheckListSize(l, 1, 1) then AddError(st, Arity("continue"), l.values[1].origin)
    else if |st.continueLabels| == 0 then AddError(st, OutsideLoop("continue"), l.values[0].origin)
    else AddOpcode(AddValue(st, SymbolValue(st.continueLabels[|st.continueLabels| - 1])), Jump)
  }

  function StmtWhile(l: List, st: St): (r: St)
    requires |l.values| > 0
    ensures Grows(st, r)
    decreases Depth(l), 1, 0
  {
    if |l.values| != 3 then AddError(st, Arity("while"), l.values[0].origin)
    else
      var start, after := LabelName(st.nextLabel), LabelName(st.nextLabel + 1);
      var s0 := st.(nextLabel := st.nextLabel + 2,
                    continueLabels := st.continueLabels + [start],
                    breakLabels := st.breakLabels + [after]);
      ChildDepth(l, 1);
      ChildDepth(l, 2);
      var s1 := ProcessValue(l.values[1], AddLabel(s0, start));
      var s2 := ProcessValue(l.values[2], AddOpcode(AddValue(s1, SymbolValue(after)), JumpZero));
      var s3 := AddLabel(AddOpcode(AddValue(s2, SymbolValue(start)), Jump), after);
      s3.(continueLabels := Pop(s3.continueLabels), breakLabels := Pop(s3.breakLabels))
  }

  function StmtDoWhile(l: List, st: St): (r: St)
    requires |l.values| > 0
    ensures Grows(st, r)
    decreases Depth(l), 1, 0
  {
    if |l.values| != 3 then AddError(st, Arity("do_while"), l.values[0].origin)
    else
      var start, condition, after := LabelName(st.nextLabel), LabelName(st.nextLabel + 1), LabelName(st.nextLabel + 2);
      var s0 := st.(nextLabel := st.nextLabel + 3,
                    continueLabels := st.continueLabels + [condition],
                    breakLabels := st.breakLabels + [after]);
      ChildDepth(l, 1);
      ChildDepth(l, 2);
      var s1 := ProcessValue(l.values[1], AddLabel(s0, start));
      var s2 := ProcessValue(l.values[2], AddLabel(AddOpcode(s1, StackPop), condition));
      var s3 := AddLabel(AddOpcode(AddValue(AddOpcode(AddValue(s2, SymbolValue(after)), JumpZero), SymbolValue(start)), Jump), after);
      s3.(continueLabels := Pop(s3.continueLabels), breakLabels := Pop(s3.breakLabels))
  }

  // ------------------------------------------------------------------------
  // Conditionals, variables, containers and the rest

  function StmtIf(l: List, st: St): (r: St)
    requires |l.values| > 0
    ensures Grows(st, r)
    decreases Depth(l), 1, 0
  {
    if |l.values| < 3 || |l.values| > 4 then AddError(st, Arity("if"), l.values[0].origin)
    else
      var after, elseLabel := LabelName(st.nextLabel), LabelName(st.nextLabel + 1);
      ChildDepth(l, 1);
      ChildDepth(l, 2);
      var s1 := ProcessValue(l.values[1], st.(nextLabel := st.nextLabel + 2));
      var s2 := ProcessValue(l.values[2], AddOpcode(AddValue(s1, SymbolValue(elseLabel)), JumpZero));
      var s3 := AddLabel(AddOpcode(AddValue(s2, SymbolValue(after)), Jump), elseLabel);
      var s4 := if |l.values| >= 4 then (ChildDepth(l, 3); ProcessValue(l.values[3], s3)) else AddValue(s3, IntValue(0));
      AddLabel(s4, after)
  }

  function StmtInc(l: List, st: St): (r: St)
    requires |l.values| > 0
    ensures Grows(st, r)
    decreases Depth(l), 1, 0
  {
    AdjustVariable(l, Add, st)
  }

  function StmtDec(l: List, st: St): (r: St)
    requires |l.values| > 0
    ensures Grows(st, r)
    decreases Depth(l), 1, 0
  {
    AdjustVariable(l, Sub, st)
  }

  /// The body `inc` and `dec` share; they differ only in the opcode applied
  /// (both report their diagnostics under the word "inc", as the source does).
  function AdjustVariable(l: List, op: OpCode, st: St): (r: St)
    requires |l.values| > 0
    ensures Grows(st, r)
    decreases Depth(l), 0, 0
  {
    if !S.CheckListSize(l, 2, 3) then AddError(st, Arity("inc"), l.values[0].origin)
    else if l.values[1].value.kind != LocalVar then AddError(st, NotLocalVariable("inc"), l.values[1].origin)
    else
      ChildDepth(l, 1);
      var s := if |l.values| == 3 then (ChildDepth(l, 2); ProcessValue(l.values[2], st)) else AddValue(st, IntValue(1));
      var s1 := ProcessValue(l.values[1], s);
      AddOpcode(AddValue(AddOpcode(s1, op), VarRefValue(l.values[1].value.num)), Store)
  }

  function StmtList(l: List, st: St): (r: St)
    requires |l.values| > 0
    ensures Grows(st, r)
    decreases Depth(l), 1, 0
  {
    NewContainer(l, ValueType.List, ListPush, st)
  }

  function StmtString(l: List, st: St): (r: St)
    requires |l.values| > 0
    ensures Grows(st, r)
    decreases Depth(l), 1, 0
  {
    NewContainer(l, ValueType.String, StringAppend, st)
  }

  /// The body `list` and `string` share: create the container, then append
  /// every operand in order.
  function NewContainer(l: List, kind: ValueType, append: OpCode, st: St): (r: St)
    requires |l.values| > 0
    ensures Grows(st, r)
    decreases Depth(l), 0, |l.values|
  {
    var s := AddOpcode(AddValue(st, Value(TypeId, TypeNumber(kind), "", NullOpcode)), New);
    ContainerOperands(l, 1, append, s)
  }

  function ContainerOperands(l: List, i: nat, append: OpCode, st: St): (r: St)
    requires 1 <= i <= |l.values|
    ensures Grows(st, r)
    decreases Depth(l), 0, |l.values| - i
  {
    if i == |l.values| then st
    else
      ChildDepth(l, i);
      var s := ProcessValue(l.values[i], AddOpcode(st, StackDup));
      var s1 := AddOpcode(AddOpcode(AddValue(AddValue(s, IntValue(0)), IntValue(1)), StackSwap), append);
      ContainerOperands(l, i + 1, append, s1)
  }

  function StmtReturn(l: List, st: St): (r: St)
    requires |l.values| > 0
    ensures Grows(st, r)
    decreases Depth(l), 1, 0
  {
    if |l.values| > 2 then AddError(st, Arity("return"), l.values[0].origin)
    else
      var s := if |l.values| > 1 then (ChildDepth(l, 1); ProcessValue(l.values[1], st)) else AddValue(st, NoneValue());
      AddOpcode(s, Return)
  }

  function StmtOption(l: List, st: St): (r: St)
    requires |l.values| > 0
    ensures Grows(st, r)
    decreases Depth(l), 1, 0
  {
    if !S.CheckListSize(l, 2, 5) then AddError(st, Arity("option"), l.values[0].origin)
    else
      ChildDepth(l, 1);
      var s := ProcessValue(l.values[1], st);
      var s1 := OptionalOperand(l, 3, OptionalOperand(l, 2, s));
      AddOpcode(OptionalOperand(l, 4, s1), AddOption)
  }

  /// Operand `i` if the list has one, otherwise an absent value.
  function OptionalOperand(l: List, i: nat, st: St): (r: St)
    ensures Grows(st, r)
    decreases Depth(l), 0, 0
  {
    if i < |l.values| then (ChildDepth(l, i); ProcessValue(l.values[i], st)) else AddValue(st, NoneValue())
  }

  function StmtPrint(l: List, st: St): (r: St)
    requires |l.values| > 0
    ensures Grows(st, r)
    decreases Depth(l), 1, 0
  {
    if |l.values| <= 1 then AddError(st, Arity("print"), l.values[0].origin)
    else SayOperands(l, 1, st)
  }

  function StmtPrintUf(l: List, st: St): (r: St)
    requires |l.values| > 0
    ensures Grows(st, r)
    decreases Depth(l), 1, 0
  {
    if |l.values| <= 1 then AddError(st, Arity("print_uf"), l.values[0].origin)
    else
      ChildDepth(l, 1);
      SayOperands(l, 2, AddOpcode(ProcessValue(l.values[1], st), SayUCFirst))
  }

  /// Operands `i` onwards, each followed by `Say`.
  function SayOperands(l: List, i: nat, st: St): (r: St)
    requires 1 <= i <= |l.values|
    ensures Grows(st, r)
    decreases Depth(l), 0, |l.values| - i
  {
    if i == |l.values| then st
    else
      ChildDepth(l, i);
      SayOperands(l, i + 1, AddOpcode(ProcessValue(l.values[i], st), Say))
  }

  function StmtProc(l: List, st: St): (r: St)
    requires |l.values| > 0
    ensures Grows(st, r)
    decreases Depth(l), 1, 0
  {
    if |l.values| < 2 then AddError(st, Arity("proc"), l.values[0].origin)
    else ProcOperands(l, 1, st)
  }

  /// Operands `i` onwards; every result but the last one's is popped.
  function ProcOperands(l: List, i: nat, st: St): (r: St)
    requires 1 <= i <= |l.values|
    ensures Grows(st, r)
    decreases Depth(l), 0, |l.values| - i
  {
    if i == |l.values| then st
    else
      ChildDepth(l, i);
      var s := ProcessValue(l.values[i], st);
      ProcOperands(l, i + 1, if i != |l.values| - 1 then AddOpcode(s, StackPop) else s)
  }

  // ------------------------------------------------------------------------
  // Unfolding steps: each construct's result from its intermediate states

  lemma WhileSteps(l: List, st: St, s1: St, s2: St, s3: St)
    requires |l.values| == 3
    requires s1 == ProcessValue(l.values[1], AddLabel(st.(nextLabel := st.nextLabel + 2,
                                                          continueLabels := st.continueLabels + [LabelName(st.nextLabel)],
                                                          breakLabels := st.breakLabels + [LabelName(st.nextLabel + 1)]),
                                                      LabelName(st.nextLabel)))
    requires s2 == ProcessValue(l.values[2], AddOpcode(AddValue(s1, SymbolValue(LabelName(st.nextLabel + 1))), JumpZero))
    requires s3 == AddLabel(AddOpcode(AddValue(s2, SymbolValue(LabelName(st.nextLabel))), Jump), LabelName(st.nextLabel + 1))
    ensures StmtWhile(l, st) == s3.(continueLabels := Pop(s3.continueLabels), breakLabels := Pop(s3.breakLabels))
  {
    var start, after := LabelName(st.nextLabel), LabelName(st.nextLabel + 1);
    var s0 := st.(nextLabel := st.nextLabel + 2, continueLabels := st.continueLabels + [start], breakLabels := st.breakLabels + [after]);
    assert s1 == ProcessValue(l.values[1], AddLabel(s0, start));
    assert s2 == ProcessValue(l.values[2], AddOpcode(AddValue(s1, SymbolValue(after)), JumpZero));
  }

  lemma DoWhileSteps(l: List, st: St, s1: St, s2: St, s3: St)
    requires |l.values| == 3
    requires s1 == ProcessValue(l.values[1], AddLabel(st.(nextLabel := st.nextLabel + 3,
                                                          continueLabels := st.continueLabels + [LabelName(st.nextLabel + 1)],
                                                          breakLabels := st.breakLabels + [LabelName(st.nextLabel + 2)]),
                                                      LabelName(st.nextLabel)))
    requires s2 == ProcessValue(l.values[2], AddLabel(AddOpcode(s1, StackPop), LabelName(st.nextLabel + 1)))
    requires s3 == AddLabel(AddOpcode(AddValue(AddOpcode(AddValue(s2, SymbolValue(LabelName(st.nextLabel + 2))), JumpZero),
                                         SymbolValue(LabelName(st.nextLabel))), Jump), LabelName(st.nextLabel + 2))
    ensures StmtDoWhile(l, st) == s3.(continueLabels := Pop(s3.continueLabels), breakLabels := Pop(s3.breakLabels))
  {
    var start, condition, after := LabelName(st.nextLabel), LabelName(st.nextLabel + 1), LabelName(st.nextLabel + 2);
    var s0 := st.(nextLabel := st.nextLabel + 3, continueLabels := st.continueLabels + [condition], breakLabels := st.breakLabels + [after]);
    assert s1 == ProcessValue(l.values[1], AddLabel(s0, start));
    assert s2 == ProcessValue(l.values[2], AddLabel(AddOpcode(s1, StackPop), condition));
  }

  lemma IfSteps(l: List, st: St, s1: St, s2: St, s4: St)
    requires 3 <= |l.values| <= 4
    requires s1 == ProcessValue(l.values[1], st.(nextLabel := st.nextLabel + 2))
    requires s2 == ProcessValue(l.values[2], AddOpcode(AddValue(s1, SymbolValue(LabelName(st.nextLabel + 1))), JumpZero))
    requires s4 == (var s3 := AddLabel(AddOpcode(AddValue(s2, SymbolValue(LabelName(st.nextLabel))), Jump), LabelName(st.nextLabel + 1));
                    if |l.values| >= 4 then ProcessValue(l.values[3], s3) else AddValue(s3, IntValue(0)))
    ensures StmtIf(l, st) == AddLabel(s4, LabelName(st.nextLabel))
  {
  }

  lemma CallSteps(l: List, st: St, s: St, s2: St)
    requires |l.values| > 0
    requires CallOperands(l, |l.values| - 1, st) == (s, false)
    requires s2 == (var s1 := AddValue(s, IntValue(|l.values| - 1));
                    if l.values[0].value.kind == Expression then ProcessList(l.values[0].sublist, s1) else AddValue(s1, l.values[0].value))
    ensures HandleCallStmt(l, st) == AddOpcode(s2, Call)
  {
  }

  lemma ContainerLoopStep(l: List, i: nat, append: OpCode, st: St)
    requires 1 <= i < |l.values|
    ensures ContainerOperands(l, i, append, st)
         == ContainerOperands(l, i + 1, append,
              AddOpcode(AddOpcode(AddValue(AddValue(ProcessValue(l.values[i], AddOpcode(st, StackDup)), IntValue(0)), IntValue(1)),
                                  StackSwap), append))
  {
  }

  lemma AdjustSteps(l: List, op: OpCode, st: St, s1: St)
    requires 2 <= |l.values| <= 3 && l.values[1].value.kind == LocalVar
    requires s1 == ProcessValue(l.values[1], if |l.values| == 3 then ProcessValue(l.values[2], st) else AddValue(st, IntValue(1)))
    ensures AdjustVariable(l, op, st) == AddOpcode(AddValue(AddOpcode(s1, op), VarRefValue(l.values[1].value.num)), Store)
  {
  }
}
