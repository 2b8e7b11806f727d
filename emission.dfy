/// The emission target (the function under construction), the diagnostics
/// collector, and the pure state record both are specified by.

module Emission {
  import opened Values

  /// What went wrong, one tag per diagnostic the lowering pass can report.
  /// `word` names the statement the source's message names.
  datatype ErrorKind =
    | ExpectedOpcode
    | OpcodeNotExpression
    | OperandCount
    | InvalidStoreTarget
    | Arity(word: string)
    | OutsideLoop(word: string)
    | NotLocalVariable(word: string)
    | IndirectionAtEnd
    | IndirectionNotLocal
    | OpcodeNotExplicit
    | InvalidLabel
    | UnexpectedAsmValue
    | InvalidExpressionValue
    | UndefinedSymbol
    | UnknownCommand
    | UnrecognizedName
    | InvalidExpressionHead

  datatype Error = Error(kind: ErrorKind, at: Origin)

  /// Everything the pass reads and writes: the function's instruction stream,
  /// label counter and loop-target stacks, and the diagnostics so far.
  datatype St = St(
    code: seq<Instr>,
    nextLabel: nat,
    breakLabels: seq<string>,
    continueLabels: seq<string>,
    errors: seq<Error>)

  predicate HasErrors(st: St) { |st.errors| > 0 }

  function AddValue(st: St, v: Value): St { st.(code := st.code + [Val(v)]) }
  function AddOpcode(st: St, c: OpCode): St { st.(code := st.code + [Op(c)]) }
  function AddLabel(st: St, name: string): St { st.(code := st.code + [Lbl(name)]) }
  function AddError(st: St, kind: ErrorKind, at: Origin): St { st.(errors := st.errors + [Error(kind, at)]) }

  /// `b` is a state the pass can reach from `a`: the stream and the
  /// diagnostics only grow, the label counter never goes back, and the loop
  /// stacks are as they were.
  predicate Grows(a: St, b: St)
  {
    && a.code <= b.code
    && a.errors <= b.errors
    && a.nextLabel <= b.nextLabel
    && b.breakLabels == a.breakLabels
    && b.continueLabels == a.continueLabels
  }

  /// The diagnostics collector (`GameData` as far as this pass uses it).
  class GameData {
    var errors: seq<Error>

    constructor ()
      ensures errors == []
    {
      errors := [];
    }

    predicate HasErrors()
      reads this
    {
      |errors| > 0
    }

    method AddError(kind: ErrorKind, at: Origin)
      modifies this
      ensures errors == old(errors) + [Error(kind, at)]
    {
      errors := errors + [Error(kind, at)];
    }
  }

  /// The function under construction: an append-only instruction stream,
  /// the label counter and the two loop-target stacks.
  class FunctionDef {
    var code: seq<Instr>
    var nextLabel: nat
    var breakLabels: seq<string>
    var continueLabels: seq<string>

    constructor ()
      ensures code == [] && nextLabel == 0 && breakLabels == [] && continueLabels == []
    {
      code, nextLabel, breakLabels, continueLabels := [], 0, [], [];
    }

    method AddValue(v: Value)
      modifies this`code
      ensures code == old(code) + [Val(v)]
    {
      code := code + [Val(v)];
    }

    method AddOpcode(c: OpCode)
      modifies this`code
      ensures code == old(code) + [Op(c)]
    {
      code := code + [Op(c)];
    }

    method AddLabel(name: string)
      modifies this`code
      ensures code == old(code) + [Lbl(name)]
    {
      code := code + [Lbl(name)];
    }

    /// Takes the next label number and returns its name.
    method FreshLabel() returns (name: string)
      modifies this`nextLabel
      ensures name == LabelName(old(nextLabel)) && nextLabel == old(nextLabel) + 1
    {
      name := LabelName(nextLabel);
      nextLabel := nextLabel + 1;
    }
  }

  function Snap(gamedata: GameData, func: FunctionDef): St
    reads gamedata, func
  {
    St(func.code, func.nextLabel, func.breakLabels, func.continueLabels, gamedata.errors)
  }
}
