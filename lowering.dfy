/// The lowering pass as the source runs it: routines that append to the
/// function under construction and report to the diagnostics collector in
/// place. Each is proved to leave exactly the state the function of the same
/// name in module LoweringSpec describes.

module Lowering {
  import opened Values
  import opened Emission
  import S = Statements
  import Spec = LoweringSpec

  // ------------------------------------------------------------------------
  // Dispatch

  method ProcessValue(gamedata: GameData, func: FunctionDef, lv: ListValue)
    modifies gamedata, func
    ensures Snap(gamedata, func) == Spec.ProcessValue(lv, old(Snap(gamedata, func)))
    decreases Depth(lv.sublist), 4, 0
  {
    match lv.value.kind
    case Reserved | Indirection | Opcode =>
      gamedata.AddError(InvalidExpressionValue, lv.origin);
    case Symbol =>
      gamedata.AddError(UndefinedSymbol, lv.origin);
    case Expression =>
      ProcessList(gamedata, func, lv.sublist);
      if gamedata.HasErrors() { return; }
    case _ =>
      func.AddValue(lv.value);
  }

  method ProcessList(gamedata: GameData, func: FunctionDef, list: List)
    modifies gamedata, func
    ensures Snap(gamedata, func) == Spec.ProcessList(list, old(Snap(gamedata, func)))
    decreases Depth(list), 3, 0
  {
    if |list.values| == 0 { return; }
    var head := list.values[0];
    match head.value.kind
    case Function | LocalVar | Expression =>
      HandleCallStmt(gamedata, func, list);
    case Opcode =>
      HandleAsmStmt(gamedata, func, list);
    case String =>
      var printed := Spec.WithPrintHead(list);
      PrependLeafDepth(list, printed.values[0]);
      StmtPrint(gamedata, func, printed);
      func.AddOpcode(PushNone);
    case Reserved =>
      HandleReservedStmt(gamedata, func, list);
    case Symbol =>
      gamedata.AddError(UnrecognizedName, head.origin);
    case _ =>
      gamedata.AddError(InvalidExpressionHead, head.origin);
  }

  // ------------------------------------------------------------------------
  // Calls and implicit opcodes

  method HandleCallStmt(gamedata: GameData, func: FunctionDef, list: List)
    requires |list.values| > 0
    modifies gamedata, func
    ensures Snap(gamedata, func) == Spec.HandleCallStmt(list, old(Snap(gamedata, func)))
    decreases Depth(list), 1, 0
  {
    var head := list.values[0];
    var argumentCount := |list.values| - 1;
    ghost var st := Snap(gamedata, func);
    var stopped := CallOperands(gamedata, func, list);
    if stopped { return; }
    ghost var s := Snap(gamedata, func);
    func.AddValue(IntValue(argumentCount));
    ghost var s1 := Snap(gamedata, func);
    assert s1 == AddValue(s, IntValue(|list.values| - 1));
    if head.value.kind == Expression {
      ChildDepth(list, 0);
      ProcessList(gamedata, func, head.sublist);
    } else {
      func.AddValue(head.value);
    }
    ghost var s2 := Snap(gamedata, func);
    func.AddOpcode(Call);
    assert Snap(gamedata, func) == AddOpcode(s2, Call);
    Spec.CallSteps(list, st, s, s2);
  }

  /// The argument loop of a call, last argument first; `stopped` says it
  /// returned early because diagnostics existed after a nested expression.
  method CallOperands(gamedata: GameData, func: FunctionDef, list: List) returns (stopped: bool)
    requires |list.values| > 0
    modifies gamedata, func
    ensures (Snap(gamedata, func), stopped) == Spec.CallOperands(list, |list.values| - 1, old(Snap(gamedata, func)))
    decreases Depth(list), 0, |list.values|
  {
    ghost var st0 := Snap(gamedata, func);
    var i := |list.values| - 1;
    while i >= 1
      invariant 0 <= i < |list.values|
      invariant Spec.CallOperands(list, i, Snap(gamedata, func)) == Spec.CallOperands(list, |list.values| - 1, st0)
      decreases i
    {
      var v := list.values[i];
      ghost var p := Snap(gamedata, func);
      if v.value.kind == Expression {
        ChildDepth(list, i);
        ProcessList(gamedata, func, v.sublist);
        assert Snap(gamedata, func) == Spec.ProcessList(v.sublist, p);
        if gamedata.HasErrors() { return true; }
      } else {
        func.AddValue(v.value);
        assert Snap(gamedata, func) == AddValue(p, v.value);
      }
      i := i - 1;
    }
    return false;
  }

  method HandleAsmStmt(gamedata: GameData, func: FunctionDef, list: List)
    requires |list.values| > 0
    modifies gamedata, func
    ensures Snap(gamedata, func) == Spec.HandleAsmStmt(list, old(Snap(gamedata, func)))
    decreases Depth(list), 1, 0
  {
    var head := list.values[0];
    if head.value.kind != Opcode {
      gamedata.AddError(ExpectedOpcode, head.origin);
      return;
    }
    var op := head.value.opcode;
    if ForbidExpression in op.permissions {
      gamedata.AddError(OpcodeNotExpression, head.origin);
      return;
    }
    var wantedOpcodeCount := (op.inputs + 1) % 0x1_0000_0000;
    if wantedOpcodeCount < 255 && !S.CheckListSize(list, wantedOpcodeCount, wantedOpcodeCount) {
      gamedata.AddError(OperandCount, head.origin);
      return;
    }
    var stopped := OpcodeOperands(gamedata, func, list, op.code);
    if stopped { return; }
    func.AddOpcode(op.code);
    if op.outputs <= 0 {
      func.AddValue(NoneValue());
    }
  }

  /// The operand loop of an implicit opcode, last operand first.
  method OpcodeOperands(gamedata: GameData, func: FunctionDef, list: List, code: OpCode) returns (stopped: bool)
    requires |list.values| > 0
    modifies gamedata, func
    ensures (Snap(gamedata, func), stopped) == Spec.OpcodeOperands(list, |list.values| - 1, code, old(Snap(gamedata, func)))
    decreases Depth(list), 0, |list.values|
  {
    ghost var st0 := Snap(gamedata, func);
    var i := |list.values| - 1;
    while i >= 1
      invariant 0 <= i < |list.values|
      invariant Spec.OpcodeOperands(list, i, code, Snap(gamedata, func))
             == Spec.OpcodeOperands(list, |list.values| - 1, code, st0)
      decreases i
    {
      var v := list.values[i];
      if i == 1 && (code == Store || code == GetOption) {
        if v.value.kind == None && code == GetOption {
          func.AddValue(NoneValue());
        } else if v.value.kind != LocalVar {
          gamedata.AddError(InvalidStoreTarget, v.origin);
        } else {
          func.AddValue(VarRefValue(v.value.num));
        }
      } else if v.value.kind == Expression {
        ChildDepth(list, i);
        ProcessList(gamedata, func, v.sublist);
        if gamedata.HasErrors() { return true; }
      } else {
        func.AddValue(v.value);
      }
      i := i - 1;
    }
    return false;
  }

  // ------------------------------------------------------------------------
  // Reserved words

  method HandleReservedStmt(gamedata: GameData, func: FunctionDef, list: List)
    requires |list.values| > 0
    modifies gamedata, func
    ensures Snap(gamedata, func) == Spec.HandleReservedStmt(list, old(Snap(gamedata, func)))
    decreases Depth(list), 2, 0
  {
    var word := list.values[0].value.text;
    var k := 0;
    while k < |S.StatementTypes|
      invariant 0 <= k <= |S.StatementTypes|
      invariant S.FindStatement(word, 0) == S.FindStatement(word, k)
    {
      var stmt := S.StatementTypes[k];
      if stmt.name == word {
        if stmt.handler != S.NoHandler {
          Dispatch(gamedata, func, stmt.handler, list);
          if !stmt.hasResult {
            func.AddOpcode(PushNone);
          }
          return;
        }
        break;
      }
      k := k + 1;
    }
    gamedata.AddError(UnknownCommand, list.values[0].origin);
  }

  method Dispatch(gamedata: GameData, func: FunctionDef, h: S.Handler, list: List)
    requires |list.values| > 0 && h != S.NoHandler
    modifies gamedata, func
    ensures Snap(gamedata, func) == Spec.Dispatch(h, list, old(Snap(gamedata, func)))
    decreases Depth(list), 1, 1
  {
    match h
    case StmtAnd => StmtAnd(gamedata, func, list);
    case StmtAsm => var _ := StmtAsm(gamedata, func, list);
    case StmtBreak => StmtBreak(gamedata, func, list);
    case StmtContinue => StmtContinue(gamedata, func, list);
    case StmtDec => StmtDec(gamedata, func, list);
    case StmtDoWhile => StmtDoWhile(gamedata, func, list);
    case StmtIf => StmtIf(gamedata, func, list);
    case StmtInc => StmtInc(gamedata, func, list);
    case StmtList => StmtList(gamedata, func, list);
    case StmtReturn => StmtReturn(gamedata, func, list);
    case StmtString => StmtString(gamedata, func, list);
    case StmtOption => StmtOption(gamedata, func, list);
    case StmtOr => StmtOr(gamedata, func, list);
    case StmtPrint => StmtPrint(gamedata, func, list);
    case StmtPrintUf => StmtPrintUf(gamedata, func, list);
    case StmtProc => StmtProc(gamedata, func, list);
    case StmtWhile => StmtWhile(gamedata, func, list);
  }

  // ------------------------------------------------------------------------
  // Short-circuit operators

  method StmtAnd(gamedata: GameData, func: FunctionDef, list: List)
    requires |list.values| > 0
    modifies gamedata, func
    ensures Snap(gamedata, func) == Spec.StmtAnd(list, old(Snap(gamedata, func)))
    decreases Depth(list), 1, 0
  {
    if |list.values| < 3 {
      gamedata.AddError(Arity("and"), Spec.FirstOperandOrigin(list));
      return;
    }
    ghost var st := Snap(gamedata, func);
    var afterLabel := func.FreshLabel();
    var falseLabel := func.FreshLabel();
    ghost var st0 := Snap(gamedata, func);
    assert st0 == st.(nextLabel := st.nextLabel + 2);
    ShortCircuitOperands(gamedata, func, list, falseLabel, JumpZero);
    ghost var s := Snap(gamedata, func);
    func.AddValue(IntValue(1));
    func.AddValue(SymbolValue(afterLabel));
    func.AddOpcode(Jump);
    func.AddLabel(falseLabel);
    func.AddValue(IntValue(0));
    func.AddLabel(afterLabel);
    assert Snap(gamedata, func) == Spec.ShortCircuitTail(s, afterLabel, falseLabel, 1);
  }

  method StmtOr(gamedata: GameData, func: FunctionDef, list: List)
    requires |list.values| > 0
    modifies gamedata, func
    ensures Snap(gamedata, func) == Spec.StmtOr(list, old(Snap(gamedata, func)))
    decreases Depth(list), 1, 0
  {
    if |list.values| < 3 {
      gamedata.AddError(Arity("or"), Spec.FirstOperandOrigin(list));
      return;
    }
    ghost var st := Snap(gamedata, func);
    var afterLabel := func.FreshLabel();
    var trueLabel := func.FreshLabel();
    ghost var st0 := Snap(gamedata, func);
    assert st0 == st.(nextLabel := st.nextLabel + 2);
    ShortCircuitOperands(gamedata, func, list, trueLabel, JumpNotZero);
    ghost var s := Snap(gamedata, func);
    func.AddValue(IntValue(0));
    func.AddValue(SymbolValue(afterLabel));
    func.AddOpcode(Jump);
    func.AddLabel(trueLabel);
    func.AddValue(IntValue(1));
    func.AddLabel(afterLabel);
    assert Snap(gamedata, func) == Spec.ShortCircuitTail(s, afterLabel, trueLabel, 0);
  }

  /// The operand loop shared by `and` and `or`: each operand is followed by
  /// a conditional jump to `target`.
  method ShortCircuitOperands(gamedata: GameData, func: FunctionDef, list: List, target: string, jump: OpCode)
    requires |list.values| > 0
    modifies gamedata, func
    ensures Snap(gamedata, func) == Spec.ShortCircuitOperands(list, 1, target, jump, old(Snap(gamedata, func)))
    decreases Depth(list), 0, |list.values|
  {
    ghost var st0 := Snap(gamedata, func);
    var i := 1;
    while i < |list.values|
      invariant 1 <= i <= |list.values|
      invariant Spec.ShortCircuitOperands(list, i, target, jump, Snap(gamedata, func))
             == Spec.ShortCircuitOperands(list, 1, target, jump, st0)
    {
      ChildDepth(list, i);
      ProcessValue(gamedata, func, list.values[i]);
      ghost var q := Snap(gamedata, func);
      func.AddValue(SymbolValue(target));
      func.AddOpcode(jump);
      assert Snap(gamedata, func) == AddOpcode(AddValue(q, SymbolValue(target)), jump);
      i := i + 1;
    }
  }

  // ------------------------------------------------------------------------
  // Inline assembly

  /// Besides emitting, `asm` retags in place every local variable that an
  /// indirection marker names; `rewritten` is the list as it leaves it.
  method StmtAsm(gamedata: GameData, func: FunctionDef, list: List) returns (rewritten: List)
    requires |list.values| > 0
    modifies gamedata, func
    ensures Snap(gamedata, func) == Spec.StmtAsm(list, old(Snap(gamedata, func)))
    ensures rewritten == Spec.AsmRetag(list, 1)
  {
    ghost var st0 := Snap(gamedata, func);
    rewritten := list;
    var i := 1;
    while i < |rewritten.values|
      invariant |rewritten.values| == |list.values|
      invariant 1 <= i <= |list.values| + 1
      invariant forall k :: i <= k < |list.values| ==> rewritten.values[k] == list.values[k]
      invariant Spec.AsmOperands(list, i, Snap(gamedata, func)) == Spec.AsmOperands(list, 1, st0)
      invariant Spec.AsmRetag(rewritten, i) == Spec.AsmRetag(list, 1)
      decreases |list.values| + 1 - i
    {
      ghost var i0 := i;
      assert Spec.AsmNext(rewritten, i) == Spec.AsmNext(list, i);
      assert Spec.AsmEffect(rewritten, i, Snap(gamedata, func)) == Spec.AsmEffect(list, i, Snap(gamedata, func));
      rewritten, i := AsmOperand(gamedata, func, rewritten, i);
    }
  }

  /// One pass of the `asm` loop over operand `i`; `next` is the index the
  /// loop continues from.
  method AsmOperand(gamedata: GameData, func: FunctionDef, list: List, i: nat) returns (rewritten: List, next: nat)
    requires 1 <= i < |list.values|
    modifies gamedata, func
    ensures Snap(gamedata, func) == Spec.AsmEffect(list, i, old(Snap(gamedata, func)))
    ensures next == Spec.AsmNext(list, i)
    ensures rewritten == Spec.RetagStep(list, i)
  {
    rewritten := list;
    next := i;
    var lv := list.values[next];
    match lv.value.kind {
      case Indirection =>
        next := next + 1;
        if next >= |rewritten.values| {
          gamedata.AddError(IndirectionAtEnd, lv.origin);
        } else {
          var rlv := rewritten.values[next];
          if rlv.value.kind != LocalVar {
            gamedata.AddError(IndirectionNotLocal, lv.origin);
          } else {
            rlv := rlv.(value := rlv.value.(kind := VarRef));
            rewritten := ListOf(rewritten.values[next := rlv]);
            func.AddValue(rlv.value);
          }
        }
      case None | Integer | String | List | Map | Function | Object | Property | TypeId | LocalVar =>
        func.AddValue(lv.value);
      case Opcode =>
        if ForbidAsm in lv.value.opcode.permissions {
          gamedata.AddError(OpcodeNotExplicit, lv.origin);
        }
        func.AddOpcode(lv.value.opcode.code);
      case Symbol =>
        if next + 1 < |rewritten.values| && rewritten.values[next + 1].value.kind == Colon {
          func.AddLabel(lv.value.text);
          next := next + 1;
        } else {
          func.AddValue(SymbolValue(lv.value.text));
        }
      case Colon =>
        if next > 1 {
          gamedata.AddError(InvalidLabel, lv.origin);
        } else {
          gamedata.AddError(UnexpectedAsmValue, lv.origin);
        }
      case _ =>
        gamedata.AddError(UnexpectedAsmValue, lv.origin);
    }
    next := next + 1;
  }

  // ------------------------------------------------------------------------
  // Loops

  method StmtBreak(gamedata: GameData, func: FunctionDef, list: List)
    requires |list.values| > 0
    modifies gamedata, func
    ensures Snap(gamedata, func) == Spec.StmtBreak(list, old(Snap(gamedata, func)))
  {
    if !S.CheckListSize(list, 1, 1) {
      gamedata.AddError(Arity("break"), list.values[1].origin);
      return;
    }
    if |func.breakLabels| == 0 {
      gamedata.AddError(OutsideLoop("break"), list.values[0].origin);
      return;
    }
    func.AddValue(SymbolValue(func.breakLabels[|func.breakLabels| - 1]));
    func.AddOpcode(Jump);
  }

  method StmtContinue(gamedata: GameData, func: FunctionDef, list: List)
    requires |list.values| > 0
    modifies gamedata, func
    ensures Snap(gamedata, func) == Spec.StmtContinue(list, old(Snap(gamedata, func)))
  {
    if !S.CheckListSize(list, 1, 1) {
      gamedata.AddError(Arity("continue"), list.values[1].origin);
      return;
    }
    if |func.continueLabels| == 0 {
      gamedata.AddError(OutsideLoop("continue"), list.values[0].origin);
      return;
    }
    func.AddValue(SymbolValue(func.continueLabels[|func.continueLabels| - 1]));
    func.AddOpcode(Jump);
  }

  method StmtWhile(gamedata: GameData, func: FunctionDef, list: List)
    requires |list.values| > 0
    modifies gamedata, func
    ensures Snap(gamedata, func) == Spec.StmtWhile(list, old(Snap(gamedata, func)))
    decreases Depth(list), 1, 0
  {
    if |list.values| != 3 {
      gamedata.AddError(Arity("while"), list.values[0].origin);
      return;
    }
    ghost var st := Snap(gamedata, func);
    var startLabel := func.FreshLabel();
    var afterLabel := func.FreshLabel();
    func.continueLabels := func.continueLabels + [startLabel];
    func.breakLabels := func.breakLabels + [afterLabel];
    ghost var s0 := Snap(gamedata, func);
    assert s0 == st.(nextLabel := st.nextLabel + 2,
                     continueLabels := st.continueLabels + [startLabel],
                     breakLabels := st.breakLabels + [afterLabel]);

    ChildDepth(list, 1);
    ChildDepth(list, 2);
    func.AddLabel(startLabel);
    ghost var p1 := Snap(gamedata, func);
    assert p1 == AddLabel(s0, startLabel);
    ProcessValue(gamedata, func, list.values[1]);
    ghost var s1 := Snap(gamedata, func);
    func.AddValue(SymbolValue(afterLabel));
    func.AddOpcode(JumpZero);
    ghost var p2 := Snap(gamedata, func);
    assert p2 == AddOpcode(AddValue(s1, SymbolValue(afterLabel)), JumpZero);
    ProcessValue(gamedata, func, list.values[2]);
    ghost var s2 := Snap(gamedata, func);
    func.AddValue(SymbolValue(startLabel));
    func.AddOpcode(Jump);
    func.AddLabel(afterLabel);
    ghost var s3 := Snap(gamedata, func);
    assert s3 == AddLabel(AddOpcode(AddValue(s2, SymbolValue(startLabel)), Jump), afterLabel);

    func.continueLabels := Spec.Pop(func.continueLabels);
    func.breakLabels := Spec.Pop(func.breakLabels);
    Spec.WhileSteps(list, st, s1, s2, s3);
  }

  method StmtDoWhile(gamedata: GameData, func: FunctionDef, list: List)
    requires |list.values| > 0
    modifies gamedata, func
    ensures Snap(gamedata, func) == Spec.StmtDoWhile(list, old(Snap(gamedata, func)))
    decreases Depth(list), 1, 0
  {
    if |list.values| != 3 {
      gamedata.AddError(Arity("do_while"), list.values[0].origin);
      return;
    }
    ghost var st := Snap(gamedata, func);
    var startLabel := func.FreshLabel();
    var conditionLabel := func.FreshLabel();
    var afterLabel := func.FreshLabel();
    func.continueLabels := func.continueLabels + [conditionLabel];
    func.breakLabels := func.breakLabels + [afterLabel];
    ghost var s0 := Snap(gamedata, func);
    assert s0 == st.(nextLabel := st.nextLabel + 3,
                     continueLabels := st.continueLabels + [conditionLabel],
                     breakLabels := st.breakLabels + [afterLabel]);

    ChildDepth(list, 1);
    ChildDepth(list, 2);
    func.AddLabel(startLabel);
    ghost var p1 := Snap(gamedata, func);
    assert p1 == AddLabel(s0, startLabel);
    ProcessValue(gamedata, func, list.values[1]);
    ghost var s1 := Snap(gamedata, func);
    func.AddOpcode(StackPop);
    func.AddLabel(conditionLabel);
    ghost var p2 := Snap(gamedata, func);
    assert p2 == AddLabel(AddOpcode(s1, StackPop), conditionLabel);
    ProcessValue(gamedata, func, list.values[2]);
    ghost var s2 := Snap(gamedata, func);
    func.AddValue(SymbolValue(afterLabel));
    func.AddOpcode(JumpZero);
    func.AddValue(SymbolValue(startLabel));
    func.AddOpcode(Jump);
    func.AddLabel(afterLabel);
    ghost var s3 := Snap(gamedata, func);
    assert s3 == AddLabel(AddOpcode(AddValue(AddOpcode(AddValue(s2, SymbolValue(afterLabel)), JumpZero),
                                            SymbolValue(startLabel)), Jump), afterLabel);

    func.continueLabels := Spec.Pop(func.continueLabels);
    func.breakLabels := Spec.Pop(func.breakLabels);
    Spec.DoWhileSteps(list, st, s1, s2, s3);
  }

  // ------------------------------------------------------------------------
  // Conditionals, variables, containers and the rest

  method StmtIf(gamedata: GameData, func: FunctionDef, list: List)
    requires |list.values| > 0
    modifies gamedata, func
    ensures Snap(gamedata, func) == Spec.StmtIf(list, old(Snap(gamedata, func)))
    decreases Depth(list), 1, 0
  {
    if |list.values| < 3 || |list.values| > 4 {
      gamedata.AddError(Arity("if"), list.values[0].origin);
      return;
    }
    ghost var st := Snap(gamedata, func);
    var afterLabel := func.FreshLabel();
    var elseLabel := func.FreshLabel();

    ChildDepth(list, 1);
    ChildDepth(list, 2);
    ghost var p1 := Snap(gamedata, func);
    assert p1 == st.(nextLabel := st.nextLabel + 2);
    ProcessValue(gamedata, func, list.values[1]);
    ghost var s1 := Snap(gamedata, func);
    func.AddValue(SymbolValue(elseLabel));
    func.AddOpcode(JumpZero);
    ghost var p2 := Snap(gamedata, func);
    assert p2 == AddOpcode(AddValue(s1, SymbolValue(LabelName(st.nextLabel + 1))), JumpZero);
    ProcessValue(gamedata, func, list.values[2]);
    ghost var s2 := Snap(gamedata, func);
    func.AddValue(SymbolValue(afterLabel));
    func.AddOpcode(Jump);
    func.AddLabel(elseLabel);
    ghost var p3 := Snap(gamedata, func);
    assert p3 == AddLabel(AddOpcode(AddValue(s2, SymbolValue(LabelName(st.nextLabel))), Jump), LabelName(st.nextLabel + 1));
    if |list.values| >= 4 {
      ChildDepth(list, 3);
      ProcessValue(gamedata, func, list.values[3]);
    } else {
      func.AddValue(IntValue(0));
      assert Snap(gamedata, func) == AddValue(p3, IntValue(0));
    }
    ghost var s4 := Snap(gamedata, func);
    func.AddLabel(afterLabel);
    assert Snap(gamedata, func) == AddLabel(s4, afterLabel);
    Spec.IfSteps(list, st, s1, s2, s4);
  }

  method StmtInc(gamedata: GameData, func: FunctionDef, list: List)
    requires |list.values| > 0
    modifies gamedata, func
    ensures Snap(gamedata, func) == Spec.StmtInc(list, old(Snap(gamedata, func)))
    decreases Depth(list), 1, 0
  {
    AdjustVariable(gamedata, func, list, Add);
  }

  method StmtDec(gamedata: GameData, func: FunctionDef, list: List)
    requires |list.values| > 0
    modifies gamedata, func
    ensures Snap(gamedata, func) == Spec.StmtDec(list, old(Snap(gamedata, func)))
    decreases Depth(list), 1, 0
  {
    AdjustVariable(gamedata, func, list, Sub);
  }

  method AdjustVariable(gamedata: GameData, func: FunctionDef, list: List, op: OpCode)
    requires |list.values| > 0
    modifies gamedata, func
    ensures Snap(gamedata, func) == Spec.AdjustVariable(list, op, old(Snap(gamedata, func)))
    decreases Depth(list), 0, 0
  {
    if !S.CheckListSize(list, 2, 3) {
      gamedata.AddError(Arity("inc"), list.values[0].origin);
      return;
    }
    if list.values[1].value.kind != LocalVar {
      gamedata.AddError(NotLocalVariable("inc"), list.values[1].origin);
      return;
    }
    ghost var st := Snap(gamedata, func);
    ChildDepth(list, 1);
    if |list.values| == 3 {
      ChildDepth(list, 2);
      ProcessValue(gamedata, func, list.values[2]);
    } else {
      func.AddValue(IntValue(1));
      assert Snap(gamedata, func) == AddValue(st, IntValue(1));
    }
    ghost var s := Snap(gamedata, func);
    ProcessValue(gamedata, func, list.values[1]);
    ghost var s1 := Snap(gamedata, func);
    func.AddOpcode(op);
    func.AddValue(VarRefValue(list.values[1].value.num));
    func.AddOpcode(Store);
    assert Snap(gamedata, func) == AddOpcode(AddValue(AddOpcode(s1, op), VarRefValue(list.values[1].value.num)), Store);
    Spec.AdjustSteps(list, op, st, s1);
  }

  method StmtList(gamedata: GameData, func: FunctionDef, list: List)
    requires |list.values| > 0
    modifies gamedata, func
    ensures Snap(gamedata, func) == Spec.StmtList(list, old(Snap(gamedata, func)))
    decreases Depth(list), 1, 0
  {
    NewContainer(gamedata, func, list, ValueType.List, ListPush);
  }

  method StmtString(gamedata: GameData, func: FunctionDef, list: List)
    requires |list.values| > 0
    modifies gamedata, func
    ensures Snap(gamedata, func) == Spec.StmtString(list, old(Snap(gamedata, func)))
    decreases Depth(list), 1, 0
  {
    NewContainer(gamedata, func, list, ValueType.String, StringAppend);
  }

  method NewContainer(gamedata: GameData, func: FunctionDef, list: List, kind: ValueType, append: OpCode)
    requires |list.values| > 0
    modifies gamedata, func
    ensures Snap(gamedata, func) == Spec.NewContainer(list, kind, append, old(Snap(gamedata, func)))
    decreases Depth(list), 0, |list.values|
  {
    func.AddValue(Value(TypeId, TypeNumber(kind), "", NullOpcode));
    func.AddOpcode(New);
    ContainerOperands(gamedata, func, list, append);
  }

  /// The append loop of `list` and `string`.
  method ContainerOperands(gamedata: GameData, func: FunctionDef, list: List, append: OpCode)
    requires |list.values| > 0
    modifies gamedata, func
    ensures Snap(gamedata, func) == Spec.ContainerOperands(list, 1, append, old(Snap(gamedata, func)))
    decreases Depth(list), 0, |list.values| - 1
  {
    ghost var st0 := Snap(gamedata, func);
    var i := 1;
    while i < |list.values|
      invariant 1 <= i <= |list.values|
      invariant Spec.ContainerOperands(list, i, append, Snap(gamedata, func))
             == Spec.ContainerOperands(list, 1, append, st0)
    {
      Spec.ContainerLoopStep(list, i, append, Snap(gamedata, func));
      func.AddOpcode(StackDup);
      ChildDepth(list, i);
      ProcessValue(gamedata, func, list.values[i]);
      func.AddValue(IntValue(0));
      func.AddValue(IntValue(1));
      func.AddOpcode(StackSwap);
      func.AddOpcode(append);
      i := i + 1;
    }
  }

  method StmtReturn(gamedata: GameData, func: FunctionDef, list: List)
    requires |list.values| > 0
    modifies gamedata, func
    ensures Snap(gamedata, func) == Spec.StmtReturn(list, old(Snap(gamedata, func)))
    decreases Depth(list), 1, 0
  {
    if |list.values| > 2 {
      gamedata.AddError(Arity("return"), list.values[0].origin);
      return;
    }
    if |list.values| > 1 {
      ChildDepth(list, 1);
      ProcessValue(gamedata, func, list.values[1]);
    } else {
      func.AddValue(NoneValue());
    }
    func.AddOpcode(Return);
  }

  method StmtOption(gamedata: GameData, func: FunctionDef, list: List)
    requires |list.values| > 0
    modifies gamedata, func
    ensures Snap(gamedata, func) == Spec.StmtOption(list, old(Snap(gamedata, func)))
    decreases Depth(list), 1, 0
  {
    if !S.CheckListSize(list, 2, 5) {
      gamedata.AddError(Arity("option"), list.values[0].origin);
      return;
    }
    ChildDepth(list, 1);
    ProcessValue(gamedata, func, list.values[1]);
    OptionalOperand(gamedata, func, list, 2);
    OptionalOperand(gamedata, func, list, 3);
    OptionalOperand(gamedata, func, list, 4);
    func.AddOpcode(AddOption);
  }

  method OptionalOperand(gamedata: GameData, func: FunctionDef, list: List, i: nat)
    modifies gamedata, func
    ensures Snap(gamedata, func) == Spec.OptionalOperand(list, i, old(Snap(gamedata, func)))
    decreases Depth(list), 0, 0
  {
    if i < |list.values| {
      ChildDepth(list, i);
      ProcessValue(gamedata, func, list.values[i]);
    } else {
      func.AddValue(NoneValue());
    }
  }

  method StmtPrint(gamedata: GameData, func: FunctionDef, list: List)
    requires |list.values| > 0
    modifies gamedata, func
    ensures Snap(gamedata, func) == Spec.StmtPrint(list, old(Snap(gamedata, func)))
    decreases Depth(list), 1, 0
  {
    if |list.values| <= 1 {
      gamedata.AddError(Arity("print"), list.values[0].origin);
      return;
    }
    ghost var st0 := Snap(gamedata, func);
    var i := 1;
    while i < |list.values|
      invariant 1 <= i <= |list.values|
      invariant Spec.SayOperands(list, i, Snap(gamedata, func)) == Spec.SayOperands(list, 1, st0)
    {
      ChildDepth(list, i);
      ProcessValue(gamedata, func, list.values[i]);
      func.AddOpcode(Say);
      i := i + 1;
    }
  }

  method StmtPrintUf(gamedata: GameData, func: FunctionDef, list: List)
    requires |list.values| > 0
    modifies gamedata, func
    ensures Snap(gamedata, func) == Spec.StmtPrintUf(list, old(Snap(gamedata, func)))
    decreases Depth(list), 1, 0
  {
    if |list.values| <= 1 {
      gamedata.AddError(Arity("print_uf"), list.values[0].origin);
      return;
    }
    ChildDepth(list, 1);
    ProcessValue(gamedata, func, list.values[1]);
    func.AddOpcode(SayUCFirst);
    ghost var st0 := Snap(gamedata, func);
    var i := 2;
    while i < |list.values|
      invariant 2 <= i <= |list.values|
      invariant Spec.SayOperands(list, i, Snap(gamedata, func)) == Spec.SayOperands(list, 2, st0)
    {
      ChildDepth(list, i);
      ProcessValue(gamedata, func, list.values[i]);
      func.AddOpcode(Say);
      i := i + 1;
    }
  }

  method StmtProc(gamedata: GameData, func: FunctionDef, list: List)
    requires |list.values| > 0
    modifies gamedata, func
    ensures Snap(gamedata, func) == Spec.StmtProc(list, old(Snap(gamedata, func)))
    decreases Depth(list), 1, 0
  {
    if |list.values| < 2 {
      gamedata.AddError(Arity("proc"), list.values[0].origin);
      return;
    }
    ghost var st0 := Snap(gamedata, func);
    var i := 1;
    while i < |list.values|
      invariant 1 <= i <= |list.values|
      invariant Spec.ProcOperands(list, i, Snap(gamedata, func)) == Spec.ProcOperands(list, 1, st0)
    {
      ChildDepth(list, i);
      ProcessValue(gamedata, func, list.values[i]);
      if i != |list.values| - 1 {
        func.AddOpcode(StackPop);
      }
      i := i + 1;
    }
  }
}
