/// Where the label markers of a lowered expression come from. Every marker the
/// pass places for `and`, `or`, `while`, `do_while` and `if` is named
/// `LabelName(n)` for a number `n` it took from the function's counter during
/// that very lowering, so it repeats no name generated before. The `asm`
/// statement is the one construct that places labels under names the program
/// chooses, so the lists considered here contain no `asm` statement.

module LabelFreshness {
  import opened Values
  import opened Emission
  import S = Statements
  import opened LoweringSpec
  import LP = LoweringProperties

  /// The list is not an `asm` statement and contains none, at any depth.
  ghost predicate NoAsm(l: List)
    decreases l, 1
  {
    && !(|l.values| > 0 && l.values[0].value.kind == Reserved && l.values[0].value.text == "asm")
    && ChildrenNoAsm(l)
  }

  /// No operand of the list holds an `asm` statement.
  ghost predicate ChildrenNoAsm(l: List)
    decreases l, 0
  {
    forall i :: 0 <= i < |l.values| ==> NoAsm(l.values[i].sublist)
  }

  /// `name` is a generated label name numbered in `[lo, hi)`.
  ghost predicate Generated(name: string, lo: nat, hi: nat)
  {
    exists n: nat :: lo <= n < hi && name == LabelName(n)
  }

  /// Every label marker from stream position `p0` on carries a generated name
  /// numbered from `lo` up to the state's counter.
  ghost predicate LabelsFrom(p0: nat, lo: nat, st: St)
  {
    && lo <= st.nextLabel
    && forall k :: p0 <= k < |st.code| && st.code[k].Lbl? ==> Generated(st.code[k].name, lo, st.nextLabel)
  }

  // ------------------------------------------------------------------------
  // Single steps

  /// Pushing a value keeps the property.
  lemma PushValue(p0: nat, lo: nat, s: St, v: Value)
    requires LabelsFrom(p0, lo, s)
    ensures LabelsFrom(p0, lo, AddValue(s, v))
  {
    var t := AddValue(s, v);
    forall k | p0 <= k < |t.code| && t.code[k].Lbl?
      ensures Generated(t.code[k].name, lo, t.nextLabel)
    {
      assert s.code[k] == t.code[k];
    }
  }

  /// Emitting an opcode keeps the property.
  lemma PushOpcode(p0: nat, lo: nat, s: St, c: OpCode)
    requires LabelsFrom(p0, lo, s)
    ensures LabelsFrom(p0, lo, AddOpcode(s, c))
  {
    var t := AddOpcode(s, c);
    forall k | p0 <= k < |t.code| && t.code[k].Lbl?
      ensures Generated(t.code[k].name, lo, t.nextLabel)
    {
      assert s.code[k] == t.code[k];
    }
  }

  /// Pushing a value and then an opcode that consumes it keeps the property.
  lemma PushOperand(p0: nat, lo: nat, s: St, v: Value, c: OpCode)
    requires LabelsFrom(p0, lo, s)
    ensures LabelsFrom(p0, lo, AddOpcode(AddValue(s, v), c))
  {
    PushValue(p0, lo, s, v);
    PushOpcode(p0, lo, AddValue(s, v), c);
  }

  /// Raising the counter keeps the property.
  lemma Raise(p0: nat, lo: nat, s: St, t: St)
    requires LabelsFrom(p0, lo, s) && t.code == s.code && s.nextLabel <= t.nextLabel
    ensures LabelsFrom(p0, lo, t)
  {
    forall k | p0 <= k < |t.code| && t.code[k].Lbl?
      ensures Generated(t.code[k].name, lo, t.nextLabel)
    {
      var n: nat :| lo <= n < s.nextLabel && s.code[k].name == LabelName(n);
    }
  }

  /// Placing a label numbered from `lo` below the counter keeps the property.
  lemma Place(p0: nat, lo: nat, s: St, m: nat)
    requires LabelsFrom(p0, lo, s) && lo <= m < s.nextLabel
    ensures LabelsFrom(p0, lo, AddLabel(s, LabelName(m)))
  {
    var t := AddLabel(s, LabelName(m));
    forall k | p0 <= k < |t.code| && t.code[k].Lbl?
      ensures Generated(t.code[k].name, lo, t.nextLabel)
    {
      if k < |s.code| {
        assert s.code[k] == t.code[k];
      } else {
        assert t.code[k].name == LabelName(m);
      }
    }
  }

  /// The only table entry whose handler is `asm` is the one named "asm".
  lemma AsmEntry()
    ensures forall k :: 0 <= k < |S.StatementTypes| && S.StatementTypes[k].handler == S.StmtAsm ==> S.StatementTypes[k].name == "asm"
  {
  }

  // ------------------------------------------------------------------------
  // The lowering keeps the property, construct by construct

  lemma {:induction false} ValueLabels(lv: ListValue, st: St, p0: nat, lo: nat)
    requires NoAsm(lv.sublist) && LabelsFrom(p0, lo, st)
    ensures LabelsFrom(p0, lo, ProcessValue(lv, st))
    decreases Depth(lv.sublist), 4, 0
  {
    match lv.value.kind
    case Reserved | Indirection | Opcode =>
    case Symbol =>
    case Expression => ListLabels(lv.sublist, st, p0, lo);
    case _ => PushValue(p0, lo, st, lv.value);
  }

  lemma {:induction false} ListLabels(l: List, st: St, p0: nat, lo: nat)
    requires NoAsm(l) && LabelsFrom(p0, lo, st)
    ensures LabelsFrom(p0, lo, ProcessList(l, st))
    decreases Depth(l), 3, 0
  {
    if |l.values| > 0 {
      match l.values[0].value.kind
      case Function | LocalVar | Expression => CallLabels(l, st, p0, lo);
      case Opcode => OpcodeLabels(l, st, p0, lo);
      case String =>
        var printed := WithPrintHead(l);
        PrependLeafDepth(l, printed.values[0]);
        assert printed.values[1..] == l.values;
        var s := StmtPrint(printed, st);
        PrintLabels(printed, st, p0, lo);
        PushOpcode(p0, lo, s, PushNone);
      case Reserved => ReservedLabels(l, st, p0, lo);
      case _ =>
    }
  }

  lemma {:induction false} CallLabels(l: List, st: St, p0: nat, lo: nat)
    requires |l.values| > 0 && ChildrenNoAsm(l) && LabelsFrom(p0, lo, st)
    ensures LabelsFrom(p0, lo, HandleCallStmt(l, st))
    decreases Depth(l), 1, 0
  {
    CallOperandsLabels(l, |l.values| - 1, st, p0, lo);
    var (s, stopped) := CallOperands(l, |l.values| - 1, st);
    if !stopped {
      var func := l.values[0];
      var s1 := AddValue(s, IntValue(|l.values| - 1));
      PushValue(p0, lo, s, IntValue(|l.values| - 1));
      ChildDepth(l, 0);
      var s2 := if func.value.kind == Expression then ProcessList(func.sublist, s1) else AddValue(s1, func.value);
      if func.value.kind == Expression {
        ListLabels(func.sublist, s1, p0, lo);
      } else {
        PushValue(p0, lo, s1, func.value);
      }
      PushOpcode(p0, lo, s2, Call);
      CallSteps(l, st, s, s2);
    }
  }

  lemma {:induction false} CallOperandsLabels(l: List, i: nat, st: St, p0: nat, lo: nat)
    requires i < |l.values| && ChildrenNoAsm(l) && LabelsFrom(p0, lo, st)
    ensures LabelsFrom(p0, lo, CallOperands(l, i, st).0)
    decreases Depth(l), 0, i
  {
    if i > 0 {
      var v := l.values[i];
      if v.value.kind == Expression {
        ChildDepth(l, i);
        ListLabels(v.sublist, st, p0, lo);
        var s := ProcessList(v.sublist, st);
        if !HasErrors(s) {
          CallOperandsLabels(l, i - 1, s, p0, lo);
        }
      } else {
        PushValue(p0, lo, st, v.value);
        CallOperandsLabels(l, i - 1, AddValue(st, v.value), p0, lo);
      }
    }
  }

  lemma {:induction false} OpcodeLabels(l: List, st: St, p0: nat, lo: nat)
    requires |l.values| > 0 && ChildrenNoAsm(l) && LabelsFrom(p0, lo, st)
    ensures LabelsFrom(p0, lo, HandleAsmStmt(l, st))
    decreases Depth(l), 1, 0
  {
    var head := l.values[0];
    if head.value.kind == Opcode {
      var op := head.value.opcode;
      var wanted := WantedOperandCount(op);
      if ForbidExpression !in op.permissions && (wanted >= 255 || S.CheckListSize(l, wanted, wanted)) {
        OpcodeOperandsLabels(l, |l.values| - 1, op.code, st, p0, lo);
        var (s, stopped) := OpcodeOperands(l, |l.values| - 1, op.code, st);
        if !stopped {
          var s1 := AddOpcode(s, op.code);
          PushOpcode(p0, lo, s, op.code);
          PushValue(p0, lo, s1, NoneValue());
        }
      }
    }
  }

  lemma {:induction false} OpcodeOperandsLabels(l: List, i: nat, code: OpCode, st: St, p0: nat, lo: nat)
    requires i < |l.values| && ChildrenNoAsm(l) && LabelsFrom(p0, lo, st)
    ensures LabelsFrom(p0, lo, OpcodeOperands(l, i, code, st).0)
    decreases Depth(l), 0, i
  {
    if i > 0 {
      var v := l.values[i];
      if i == 1 && (code == Store || code == GetOption) {
        StoreLabels(l, code, st, p0, lo);
      } else if v.value.kind == Expression {
        ChildDepth(l, i);
        ListLabels(v.sublist, st, p0, lo);
        var s := ProcessList(v.sublist, st);
        if !HasErrors(s) {
          OpcodeOperandsLabels(l, i - 1, code, s, p0, lo);
        }
      } else {
        PushValue(p0, lo, st, v.value);
        OpcodeOperandsLabels(l, i - 1, code, AddValue(st, v.value), p0, lo);
      }
    }
  }

  /// The store target of `store` and `get_option` places no label.
  lemma StoreLabels(l: List, code: OpCode, st: St, p0: nat, lo: nat)
    requires 1 < |l.values| && (code == Store || code == GetOption) && LabelsFrom(p0, lo, st)
    ensures LabelsFrom(p0, lo, OpcodeOperands(l, 1, code, st).0)
  {
    var v := l.values[1];
    var target := StoreTarget(v, code);
    var s := if target == [] then AddError(st, InvalidStoreTarget, v.origin) else AddValue(st, target[0]);
    if target != [] {
      PushValue(p0, lo, st, target[0]);
    }
    assert OpcodeOperands(l, 1, code, st) == OpcodeOperands(l, 0, code, s) == (s, false);
  }

  lemma {:induction false} ReservedLabels(l: List, st: St, p0: nat, lo: nat)
    requires |l.values| > 0 && l.values[0].value.kind == Reserved && NoAsm(l) && LabelsFrom(p0, lo, st)
    ensures LabelsFrom(p0, lo, HandleReservedStmt(l, st))
    decreases Depth(l), 2, 0
  {
    var k := S.FindStatement(l.values[0].value.text, 0);
    if k < |S.StatementTypes| && S.StatementTypes[k].handler != S.NoHandler {
      var entry := S.StatementTypes[k];
      AsmEntry();
      assert entry.name == l.values[0].value.text != "asm";
      DispatchLabels(entry.handler, l, st, p0, lo);
      var s := Dispatch(entry.handler, l, st);
      PushOpcode(p0, lo, s, PushNone);
    }
  }

  lemma {:induction false} DispatchLabels(h: S.Handler, l: List, st: St, p0: nat, lo: nat)
    requires |l.values| > 0 && h != S.NoHandler && h != S.StmtAsm
    requires ChildrenNoAsm(l) && LabelsFrom(p0, lo, st)
    ensures LabelsFrom(p0, lo, Dispatch(h, l, st))
    decreases Depth(l), 1, 1
  {
    match h
    case StmtAnd => AndLabels(l, st, p0, lo);
    case StmtBreak => JumpLabels(l, st, p0, lo);
    case StmtContinue => JumpLabels(l, st, p0, lo);
    case StmtDec => AdjustLabels(l, Sub, st, p0, lo);
    case StmtDoWhile => DoWhileLabels(l, st, p0, lo);
    case StmtIf => IfLabels(l, st, p0, lo);
    case StmtInc => AdjustLabels(l, Add, st, p0, lo);
    case StmtList => ContainerLabels(l, ValueType.List, ListPush, st, p0, lo);
    case StmtReturn => ReturnLabels(l, st, p0, lo);
    case StmtString => ContainerLabels(l, ValueType.String, StringAppend, st, p0, lo);
    case StmtOption => OptionLabels(l, st, p0, lo);
    case StmtOr => OrLabels(l, st, p0, lo);
    case StmtPrint => PrintLabels(l, st, p0, lo);
    case StmtPrintUf => PrintUfLabels(l, st, p0, lo);
    case StmtProc => ProcLabels(l, st, p0, lo);
    case StmtWhile => WhileLabels(l, st, p0, lo);
  }

  /// `break` and `continue` place no label.
  lemma JumpLabels(l: List, st: St, p0: nat, lo: nat)
    requires |l.values| > 0 && LabelsFrom(p0, lo, st)
    ensures LabelsFrom(p0, lo, StmtBreak(l, st))
    ensures LabelsFrom(p0, lo, StmtContinue(l, st))
  {
    if S.CheckListSize(l, 1, 1) {
      if |st.breakLabels| > 0 {
        var s := AddValue(st, SymbolValue(st.breakLabels[|st.breakLabels| - 1]));
        PushValue(p0, lo, st, SymbolValue(st.breakLabels[|st.breakLabels| - 1]));
        PushOpcode(p0, lo, s, Jump);
      }
      if |st.continueLabels| > 0 {
        var s := AddValue(st, SymbolValue(st.continueLabels[|st.continueLabels| - 1]));
        PushValue(p0, lo, st, SymbolValue(st.continueLabels[|st.continueLabels| - 1]));
        PushOpcode(p0, lo, s, Jump);
      }
    }
  }

  lemma {:induction false} AndLabels(l: List, st: St, p0: nat, lo: nat)
    requires |l.values| > 0 && ChildrenNoAsm(l) && LabelsFrom(p0, lo, st)
    ensures LabelsFrom(p0, lo, StmtAnd(l, st))
    decreases Depth(l), 1, 0
  {
    if |l.values| >= 3 {
      var s0 := st.(nextLabel := st.nextLabel + 2);
      Raise(p0, lo, st, s0);
      ShortCircuitOperandsLabels(l, 1, LabelName(st.nextLabel + 1), JumpZero, s0, p0, lo);
      var s := ShortCircuitOperands(l, 1, LabelName(st.nextLabel + 1), JumpZero, s0);
      TailLabels(s, st.nextLabel, 1, p0, lo);
    }
  }

  lemma {:induction false} OrLabels(l: List, st: St, p0: nat, lo: nat)
    requires |l.values| > 0 && ChildrenNoAsm(l) && LabelsFrom(p0, lo, st)
    ensures LabelsFrom(p0, lo, StmtOr(l, st))
    decreases Depth(l), 1, 0
  {
    if |l.values| >= 3 {
      var s0 := st.(nextLabel := st.nextLabel + 2);
      Raise(p0, lo, st, s0);
      ShortCircuitOperandsLabels(l, 1, LabelName(st.nextLabel + 1), JumpNotZero, s0, p0, lo);
      var s := ShortCircuitOperands(l, 1, LabelName(st.nextLabel + 1), JumpNotZero, s0);
      TailLabels(s, st.nextLabel, 0, p0, lo);
    }
  }

  /// The tail of `and`/`or` places the labels numbered `n` and `n + 1`.
  lemma TailLabels(s: St, n: nat, fallValue: int, p0: nat, lo: nat)
    requires LabelsFrom(p0, lo, s) && lo <= n && n + 2 <= s.nextLabel
    ensures LabelsFrom(p0, lo, ShortCircuitTail(s, LabelName(n), LabelName(n + 1), fallValue))
  {
    var s1 := AddOpcode(AddValue(AddValue(s, IntValue(fallValue)), SymbolValue(LabelName(n))), Jump);
    PushValue(p0, lo, s, IntValue(fallValue));
    PushOperand(p0, lo, AddValue(s, IntValue(fallValue)), SymbolValue(LabelName(n)), Jump);
    Place(p0, lo, s1, n + 1);
    var s2 := AddValue(AddLabel(s1, LabelName(n + 1)), IntValue(1 - fallValue));
    PushValue(p0, lo, AddLabel(s1, LabelName(n + 1)), IntValue(1 - fallValue));
    Place(p0, lo, s2, n);
  }

  lemma {:induction false} ShortCircuitOperandsLabels(l: List, i: nat, target: string, jump: OpCode, st: St, p0: nat, lo: nat)
    requires 1 <= i <= |l.values| && ChildrenNoAsm(l) && LabelsFrom(p0, lo, st)
    ensures LabelsFrom(p0, lo, ShortCircuitOperands(l, i, target, jump, st))
    decreases Depth(l), 0, |l.values| - i
  {
    if i < |l.values| {
      ChildDepth(l, i);
      ValueLabels(l.values[i], st, p0, lo);
      var s := ProcessValue(l.values[i], st);
      var s1 := AddOpcode(AddValue(s, SymbolValue(target)), jump);
      PushOperand(p0, lo, s, SymbolValue(target), jump);
      ShortCircuitOperandsLabels(l, i + 1, target, jump, s1, p0, lo);
    }
  }

  lemma {:induction false} WhileLabels(l: List, st: St, p0: nat, lo: nat)
    requires |l.values| > 0 && ChildrenNoAsm(l) && LabelsFrom(p0, lo, st)
    ensures LabelsFrom(p0, lo, StmtWhile(l, st))
    decreases Depth(l), 1, 0
  {
    if |l.values| == 3 {
      var n := st.nextLabel;
      var start, after := LabelName(n), LabelName(n + 1);
      var s0 := st.(nextLabel := n + 2, continueLabels := st.continueLabels + [start], breakLabels := st.breakLabels + [after]);
      Raise(p0, lo, st, s0);
      ChildDepth(l, 1);
      ChildDepth(l, 2);
      Place(p0, lo, s0, n);
      ValueLabels(l.values[1], AddLabel(s0, start), p0, lo);
      var s1 := ProcessValue(l.values[1], AddLabel(s0, start));
      var q := AddOpcode(AddValue(s1, SymbolValue(after)), JumpZero);
      PushOperand(p0, lo, s1, SymbolValue(after), JumpZero);
      ValueLabels(l.values[2], q, p0, lo);
      var s2 := ProcessValue(l.values[2], q);
      var q2 := AddOpcode(AddValue(s2, SymbolValue(start)), Jump);
      PushOperand(p0, lo, s2, SymbolValue(start), Jump);
      Place(p0, lo, q2, n + 1);
      var s3 := AddLabel(q2, after);
      WhileSteps(l, st, s1, s2, s3);
    }
  }

  lemma {:induction false} DoWhileLabels(l: List, st: St, p0: nat, lo: nat)
    requires |l.values| > 0 && ChildrenNoAsm(l) && LabelsFrom(p0, lo, st)
    ensures LabelsFrom(p0, lo, StmtDoWhile(l, st))
    decreases Depth(l), 1, 0
  {
    if |l.values| == 3 {
      var n := st.nextLabel;
      var start, condition, after := LabelName(n), LabelName(n + 1), LabelName(n + 2);
      var s0 := st.(nextLabel := n + 3, continueLabels := st.continueLabels + [condition], breakLabels := st.breakLabels + [after]);
      Raise(p0, lo, st, s0);
      ChildDepth(l, 1);
      ChildDepth(l, 2);
      Place(p0, lo, s0, n);
      ValueLabels(l.values[1], AddLabel(s0, start), p0, lo);
      var s1 := ProcessValue(l.values[1], AddLabel(s0, start));
      PushOpcode(p0, lo, s1, StackPop);
      Place(p0, lo, AddOpcode(s1, StackPop), n + 1);
      var q := AddLabel(AddOpcode(s1, StackPop), condition);
      ValueLabels(l.values[2], q, p0, lo);
      var s2 := ProcessValue(l.values[2], q);
      var q2 := AddOpcode(AddValue(AddOpcode(AddValue(s2, SymbolValue(after)), JumpZero), SymbolValue(start)), Jump);
      PushOperand(p0, lo, s2, SymbolValue(after), JumpZero);
      PushOperand(p0, lo, AddOpcode(AddValue(s2, SymbolValue(after)), JumpZero), SymbolValue(start), Jump);
      Place(p0, lo, q2, n + 2);
      var s3 := AddLabel(q2, after);
      DoWhileSteps(l, st, s1, s2, s3);
    }
  }

  lemma {:induction false} IfLabels(l: List, st: St, p0: nat, lo: nat)
    requires |l.values| > 0 && ChildrenNoAsm(l) && LabelsFrom(p0, lo, st)
    ensures LabelsFrom(p0, lo, StmtIf(l, st))
    decreases Depth(l), 1, 0
  {
    if 3 <= |l.values| <= 4 {
      var n := st.nextLabel;
      var after, elseLabel := LabelName(n), LabelName(n + 1);
      ChildDepth(l, 1);
      ChildDepth(l, 2);
      var s0 := st.(nextLabel := n + 2);
      Raise(p0, lo, st, s0);
      ValueLabels(l.values[1], s0, p0, lo);
      var s1 := ProcessValue(l.values[1], s0);
      var q := AddOpcode(AddValue(s1, SymbolValue(elseLabel)), JumpZero);
      PushOperand(p0, lo, s1, SymbolValue(elseLabel), JumpZero);
      ValueLabels(l.values[2], q, p0, lo);
      var s2 := ProcessValue(l.values[2], q);
      var q2 := AddOpcode(AddValue(s2, SymbolValue(after)), Jump);
      PushOperand(p0, lo, s2, SymbolValue(after), Jump);
      Place(p0, lo, q2, n + 1);
      var s3 := AddLabel(q2, elseLabel);
      var s4 := if |l.values| >= 4 then ProcessValue(l.values[3], s3) else AddValue(s3, IntValue(0));
      if |l.values| >= 4 {
        ChildDepth(l, 3);
        ValueLabels(l.values[3], s3, p0, lo);
      } else {
        PushValue(p0, lo, s3, IntValue(0));
      }
      Place(p0, lo, s4, n);
      IfSteps(l, st, s1, s2, s4);
    }
  }

  lemma {:induction false} AdjustLabels(l: List, op: OpCode, st: St, p0: nat, lo: nat)
    requires |l.values| > 0 && ChildrenNoAsm(l) && LabelsFrom(p0, lo, st)
    ensures LabelsFrom(p0, lo, AdjustVariable(l, op, st))
    ensures op == Add ==> LabelsFrom(p0, lo, StmtInc(l, st))
    ensures op == Sub ==> LabelsFrom(p0, lo, StmtDec(l, st))
    decreases Depth(l), 0, 0
  {
    if S.CheckListSize(l, 2, 3) && l.values[1].value.kind == LocalVar {
      ChildDepth(l, 1);
      var s := if |l.values| == 3 then ProcessValue(l.values[2], st) else AddValue(st, IntValue(1));
      if |l.values| == 3 {
        ChildDepth(l, 2);
        ValueLabels(l.values[2], st, p0, lo);
      } else {
        PushValue(p0, lo, st, IntValue(1));
      }
      ValueLabels(l.values[1], s, p0, lo);
      var s1 := ProcessValue(l.values[1], s);
      PushOpcode(p0, lo, s1, op);
      PushOperand(p0, lo, AddOpcode(s1, op), VarRefValue(l.values[1].value.num), Store);
      AdjustSteps(l, op, st, s1);
    }
  }

  lemma {:induction false} ContainerLabels(l: List, kind: ValueType, append: OpCode, st: St, p0: nat, lo: nat)
    requires |l.values| > 0 && ChildrenNoAsm(l) && LabelsFrom(p0, lo, st)
    ensures LabelsFrom(p0, lo, NewContainer(l, kind, append, st))
    ensures kind == ValueType.List && append == ListPush ==> LabelsFrom(p0, lo, StmtList(l, st))
    ensures kind == ValueType.String && append == StringAppend ==> LabelsFrom(p0, lo, StmtString(l, st))
    decreases Depth(l), 0, |l.values|
  {
    var s := AddOpcode(AddValue(st, Value(TypeId, TypeNumber(kind), "", NullOpcode)), New);
    PushOperand(p0, lo, st, Value(TypeId, TypeNumber(kind), "", NullOpcode), New);
    ContainerOperandsLabels(l, 1, append, s, p0, lo);
  }

  lemma {:induction false} ContainerOperandsLabels(l: List, i: nat, append: OpCode, st: St, p0: nat, lo: nat)
    requires 1 <= i <= |l.values| && ChildrenNoAsm(l) && LabelsFrom(p0, lo, st)
    ensures LabelsFrom(p0, lo, ContainerOperands(l, i, append, st))
    decreases Depth(l), 0, |l.values| - i
  {
    if i < |l.values| {
      ChildDepth(l, i);
      PushOpcode(p0, lo, st, StackDup);
      ValueLabels(l.values[i], AddOpcode(st, StackDup), p0, lo);
      var s := ProcessValue(l.values[i], AddOpcode(st, StackDup));
      var s1 := AddOpcode(AddOpcode(AddValue(AddValue(s, IntValue(0)), IntValue(1)), StackSwap), append);
      PushValue(p0, lo, s, IntValue(0));
      PushOperand(p0, lo, AddValue(s, IntValue(0)), IntValue(1), StackSwap);
      PushOpcode(p0, lo, AddOpcode(AddValue(AddValue(s, IntValue(0)), IntValue(1)), StackSwap), append);
      ContainerOperandsLabels(l, i + 1, append, s1, p0, lo);
    }
  }

  lemma {:induction false} ReturnLabels(l: List, st: St, p0: nat, lo: nat)
    requires |l.values| > 0 && ChildrenNoAsm(l) && LabelsFrom(p0, lo, st)
    ensures LabelsFrom(p0, lo, StmtReturn(l, st))
    decreases Depth(l), 1, 0
  {
    if |l.values| <= 2 {
      var s := if |l.values| > 1 then ProcessValue(l.values[1], st) else AddValue(st, NoneValue());
      if |l.values| > 1 {
        ChildDepth(l, 1);
        ValueLabels(l.values[1], st, p0, lo);
      } else {
        PushValue(p0, lo, st, NoneValue());
      }
      PushOpcode(p0, lo, s, Return);
    }
  }

  lemma {:induction false} OptionLabels(l: List, st: St, p0: nat, lo: nat)
    requires |l.values| > 0 && ChildrenNoAsm(l) && LabelsFrom(p0, lo, st)
    ensures LabelsFrom(p0, lo, StmtOption(l, st))
    decreases Depth(l), 1, 0
  {
    if S.CheckListSize(l, 2, 5) {
      ChildDepth(l, 1);
      ValueLabels(l.values[1], st, p0, lo);
      var s := ProcessValue(l.values[1], st);
      OptionalLabels(l, 2, s, p0, lo);
      OptionalLabels(l, 3, OptionalOperand(l, 2, s), p0, lo);
      var s1 := OptionalOperand(l, 3, OptionalOperand(l, 2, s));
      OptionalLabels(l, 4, s1, p0, lo);
      var s2 := OptionalOperand(l, 4, s1);
      PushOpcode(p0, lo, s2, AddOption);
    }
  }

  lemma {:induction false} OptionalLabels(l: List, i: nat, st: St, p0: nat, lo: nat)
    requires ChildrenNoAsm(l) && LabelsFrom(p0, lo, st)
    ensures LabelsFrom(p0, lo, OptionalOperand(l, i, st))
    decreases Depth(l), 0, 0
  {
    if i < |l.values| {
      ChildDepth(l, i);
      ValueLabels(l.values[i], st, p0, lo);
    } else {
      PushValue(p0, lo, st, NoneValue());
    }
  }

  lemma {:induction false} PrintLabels(l: List, st: St, p0: nat, lo: nat)
    requires |l.values| > 0 && ChildrenNoAsm(l) && LabelsFrom(p0, lo, st)
    ensures LabelsFrom(p0, lo, StmtPrint(l, st))
    decreases Depth(l), 1, 0
  {
    if |l.values| > 1 {
      SayOperandsLabels(l, 1, st, p0, lo);
    }
  }

  lemma {:induction false} PrintUfLabels(l: List, st: St, p0: nat, lo: nat)
    requires |l.values| > 0 && ChildrenNoAsm(l) && LabelsFrom(p0, lo, st)
    ensures LabelsFrom(p0, lo, StmtPrintUf(l, st))
    decreases Depth(l), 1, 0
  {
    if |l.values| > 1 {
      ChildDepth(l, 1);
      ValueLabels(l.values[1], st, p0, lo);
      var s := ProcessValue(l.values[1], st);
      PushOpcode(p0, lo, s, SayUCFirst);
      SayOperandsLabels(l, 2, AddOpcode(s, SayUCFirst), p0, lo);
    }
  }

  lemma {:induction false} SayOperandsLabels(l: List, i: nat, st: St, p0: nat, lo: nat)
    requires 1 <= i <= |l.values| && ChildrenNoAsm(l) && LabelsFrom(p0, lo, st)
    ensures LabelsFrom(p0, lo, SayOperands(l, i, st))
    decreases Depth(l), 0, |l.values| - i
  {
    if i < |l.values| {
      ChildDepth(l, i);
      ValueLabels(l.values[i], st, p0, lo);
      var s := ProcessValue(l.values[i], st);
      PushOpcode(p0, lo, s, Say);
      SayOperandsLabels(l, i + 1, AddOpcode(s, Say), p0, lo);
    }
  }

  lemma {:induction false} ProcLabels(l: List, st: St, p0: nat, lo: nat)
    requires |l.values| > 0 && ChildrenNoAsm(l) && LabelsFrom(p0, lo, st)
    ensures LabelsFrom(p0, lo, StmtProc(l, st))
    decreases Depth(l), 1, 0
  {
    if |l.values| >= 2 {
      ProcOperandsLabels(l, 1, st, p0, lo);
    }
  }

  lemma {:induction false} ProcOperandsLabels(l: List, i: nat, st: St, p0: nat, lo: nat)
    requires 1 <= i <= |l.values| && ChildrenNoAsm(l) && LabelsFrom(p0, lo, st)
    ensures LabelsFrom(p0, lo, ProcOperands(l, i, st))
    decreases Depth(l), 0, |l.values| - i
  {
    if i < |l.values| {
      ChildDepth(l, i);
      ValueLabels(l.values[i], st, p0, lo);
      var s := ProcessValue(l.values[i], st);
      var s1 := if i != |l.values| - 1 then AddOpcode(s, StackPop) else s;
      if i != |l.values| - 1 {
        PushOpcode(p0, lo, s, StackPop);
      }
      ProcOperandsLabels(l, i + 1, s1, p0, lo);
    }
  }

  // ------------------------------------------------------------------------
  // Consequences

  /// Every label marker lowering an `asm`-free list appends is a generated
  /// name numbered from the counter's old value up to its new one.
  lemma NewLabelsFresh(l: List, st: St)
    requires NoAsm(l)
    ensures var r := ProcessList(l, st);
      forall k :: |st.code| <= k < |r.code| && r.code[k].Lbl? ==>
        exists n: nat :: st.nextLabel <= n < r.nextLabel && r.code[k].name == LabelName(n)
  {
    ListLabels(l, st, |st.code|, st.nextLabel);
  }

  /// If every marker already in the stream is a generated name numbered below
  /// the counter, then lowering an `asm`-free list keeps that so, and no
  /// marker it places repeats the name of a marker placed before it.
  lemma NoRepeatedLabel(l: List, st: St)
    requires NoAsm(l) && LabelsFrom(0, 0, st)
    ensures LabelsFrom(0, 0, ProcessList(l, st))
    ensures var r := ProcessList(l, st);
      forall j, k :: 0 <= j < |st.code| <= k < |r.code| && r.code[j].Lbl? && r.code[k].Lbl? ==>
        r.code[j].name != r.code[k].name
  {
    var r := ProcessList(l, st);
    ListLabels(l, st, 0, 0);
    ListLabels(l, st, |st.code|, st.nextLabel);
    LP.FreshLabels(st.nextLabel, r.nextLabel - st.nextLabel);
    forall j, k | 0 <= j < |st.code| <= k < |r.code| && r.code[j].Lbl? && r.code[k].Lbl?
      ensures r.code[j].name != r.code[k].name
    {
      assert r.code[j] == st.code[j];
      var a: nat :| a < st.nextLabel && st.code[j].name == LabelName(a);
      var b: nat :| st.nextLabel <= b < r.nextLabel && r.code[k].name == LabelName(b);
    }
  }
}
