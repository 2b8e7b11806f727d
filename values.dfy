/// The values a parsed list can hold, the list tree itself, the opcode metadata
/// the lowering pass consumes, and the instruction stream it produces.

module Values {

  /// Where a token came from; carried opaquely and only reported in diagnostics.
  datatype Origin = Origin(file: string, line: int, column: int)

  /// The kind tag of a value (the source's `Value::Type`).
  datatype ValueType =
    | None | Integer | String | List | Map | Function | Object | Property | TypeId
    | LocalVar | VarRef | Opcode | Symbol | Colon | Indirection | Reserved | Expression

  /// The position of a kind in the declaration above, used where the source
  /// pushes a kind tag as an integer (`static_cast<int>(Value::List)`).
  function TypeNumber(k: ValueType): (n: nat)
    ensures k == ValueType.List ==> n == 3
    ensures k == ValueType.String ==> n == 2
  {
    match k
    case None => 0 case Integer => 1 case String => 2 case List => 3 case Map => 4
    case Function => 5 case Object => 6 case Property => 7 case TypeId => 8
    case LocalVar => 9 case VarRef => 10 case Opcode => 11 case Symbol => 12
    case Colon => 13 case Indirection => 14 case Reserved => 15 case Expression => 16
  }

  /// The opcodes the lowering pass names itself; any other opcode of the
  /// machine's table is `Other(number)`.
  datatype OpCode =
    | Call | Store | GetOption | PushNone | Jump | JumpZero | JumpNotZero
    | Add | Sub | StackPop | StackDup | StackSwap | New | ListPush | StringAppend
    | Return | AddOption | Say | SayUCFirst
    | Other(number: nat)

  datatype Permission = ForbidExpression | ForbidAsm

  /// Metadata of one opcode, read only. `inputs` is the declared operand count,
  /// a 32-bit signed integer in the source.
  datatype OpcodeDef = OpcodeDef(name: string, inputs: int, outputs: int, permissions: set<Permission>, code: OpCode)

  /// What a value's opcode pointer holds when the value is not an opcode.
  const NullOpcode := OpcodeDef("", 0, 0, {}, Other(0))

  /// A value: kind tag, integer payload, text payload and opcode pointer,
  /// with the source's defaults (0, "" and null) where a payload is not given.
  datatype Value = Value(kind: ValueType, num: int, text: string, opcode: OpcodeDef)

  function NoneValue(): Value { Value(None, 0, "", NullOpcode) }
  function IntValue(n: int): Value { Value(Integer, n, "", NullOpcode) }
  function SymbolValue(name: string): Value { Value(Symbol, 0, name, NullOpcode) }
  function VarRefValue(slot: int): Value { Value(VarRef, slot, "", NullOpcode) }

  /// One slot of a list: its value, its origin and, for an `Expression`
  /// value, the nested list it owns (an absent child is the empty list, which
  /// the lowering pass treats exactly like a null pointer).
  datatype ListValue = ListValue(origin: Origin, value: Value, sublist: List)

  datatype List = ListOf(values: seq<ListValue>)

  const EmptyList := ListOf([])

  /// Nesting depth of a list tree; the lowering pass recurses on it.
  ghost function Depth(l: List): (d: nat)
    ensures d >= 1
    decreases l, |l.values| + 1
  {
    1 + MaxDepth(l, |l.values|)
  }

  /// The greatest depth among the first `n` children of `l`.
  ghost function MaxDepth(l: List, n: nat): nat
    requires n <= |l.values|
    decreases l, n
  {
    if n == 0 then 0
    else
      var d := Depth(l.values[n - 1].sublist);
      var rest := MaxDepth(l, n - 1);
      if d < rest then rest else d
  }

  lemma {:induction false} MaxDepthBound(l: List, n: nat, i: nat)
    requires i < n <= |l.values|
    ensures Depth(l.values[i].sublist) <= MaxDepth(l, n)
    decreases n
  {
    if i < n - 1 {
      MaxDepthBound(l, n - 1, i);
    }
  }

  /// Every operand of a list is strictly shallower than the list.
  lemma ChildDepth(l: List, i: nat)
    requires i < |l.values|
    ensures Depth(l.values[i].sublist) < Depth(l)
  {
    MaxDepthBound(l, |l.values|, i);
  }

  lemma {:induction false} MaxDepthShift(l: List, l': List, head: ListValue, n: nat)
    requires l'.values == [head] + l.values && n <= |l.values|
    ensures MaxDepth(l', n + 1) == (var d := Depth(head.sublist); if d < MaxDepth(l, n) then MaxDepth(l, n) else d)
    decreases n
  {
    if n > 0 {
      MaxDepthShift(l, l', head, n - 1);
      assert l'.values[n] == l.values[n - 1];
    }
  }

  /// Putting a leaf in front of a non-empty list does not change its depth.
  lemma PrependLeafDepth(l: List, head: ListValue)
    requires |l.values| > 0 && head.sublist == EmptyList
    ensures Depth(ListOf([head] + l.values)) == Depth(l)
  {
    var l' := ListOf([head] + l.values);
    MaxDepthShift(l, l', head, |l.values|);
    MaxDepthBound(l, |l.values|, 0);
    assert Depth(head.sublist) == 1 by { assert MaxDepth(EmptyList, 0) == 0; }
  }

  /// One entry of the emitted stream: an opcode, a pushed value or a label marker.
  datatype Instr = Op(code: OpCode) | Val(v: Value) | Lbl(name: string)

  /// Decimal rendering of a natural number (`std::to_string`). Its
  /// properties are stated as lemmas below rather than as postconditions,
  /// so that reasoning about the label counter does not unfold them.
  function DecimalString(n: nat): string
  {
    if n < 10 then [Digit(n)] else DecimalString(n / 10) + [Digit(n % 10)]
  }

  function Digit(d: nat): (c: char)
    requires d < 10
    ensures '0' <= c <= '9'
  {
    (48 + d) as char
  }

  /// The name the pass gives the label numbered `n`.
  function LabelName(n: nat): string
  {
    "__label_" + DecimalString(n)
  }

  /// A rendering has one digit exactly for the numbers below ten.
  lemma {:induction false} DecimalStringLength(n: nat)
    ensures |DecimalString(n)| >= 1
    ensures (|DecimalString(n)| == 1) == (n < 10)
    decreases n
  {
    if n >= 10 {
      DecimalStringLength(n / 10);
    }
  }

  /// A rendering consists of decimal digits only.
  lemma {:induction false} DecimalStringDigits(n: nat)
    ensures forall k :: 0 <= k < |DecimalString(n)| ==> '0' <= DecimalString(n)[k] <= '9'
    decreases n
  {
    if n >= 10 {
      DecimalStringDigits(n / 10);
    }
  }

  lemma {:induction false} DecimalStringInjective(a: nat, b: nat)
    requires DecimalString(a) == DecimalString(b)
    ensures a == b
    decreases a
  {
    DecimalStringLength(a);
    DecimalStringLength(b);
    if a >= 10 && b >= 10 {
      var sa, sb := DecimalString(a), DecimalString(b);
      assert sa[|sa| - 1] == sb[|sb| - 1];
      assert Digit(a % 10) == Digit(b % 10);
      assert sa[..|sa| - 1] == DecimalString(a / 10);
      assert sb[..|sb| - 1] == DecimalString(b / 10);
      DecimalStringInjective(a / 10, b / 10);
    }
  }

  /// Distinct label numbers give distinct label names.
  lemma LabelNameInjective(a: nat, b: nat)
    ensures LabelName(a) == LabelName(b) <==> a == b
  {
    if LabelName(a) == LabelName(b) {
      var p := "__label_";
      assert LabelName(a)[|p|..] == DecimalString(a);
      assert LabelName(b)[|p|..] == DecimalString(b);
      DecimalStringInjective(a, b);
    }
  }
}
