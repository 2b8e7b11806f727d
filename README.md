# quollvm expression lowering, modelled in Dafny

The quollvm builder turns the parsed body of a function into a flat stream of
instructions. The part modelled here is the expression lowering pass in
`builder/expression.cpp`. It walks a tree of nested lists: a list is an
expression, and a slot of kind `Expression` owns a nested list. It appends
three kinds of entry to the function under construction: pushed values,
opcodes and label markers. Along the way it keeps a label counter, two LIFO
stacks of loop targets (`break` and `continue`) and a collection of
diagnostics. Dispatch works on the kind of a list's head:

- function, local-variable and nested-expression heads become calls;
- an opcode head becomes an implicit opcode;
- a string head is printed;
- a reserved word selects a statement handler from a fixed table.

The project has two layers:

- `lowering_spec.dfy` (module `LoweringSpec`) gives each routine of the pass
  as a pure function from the state before it to the state after it. The
  state is a record `St` holding the instruction stream, the label counter,
  both loop stacks and the diagnostics.
- `lowering.dfy` (module `Lowering`) is the imperative pass. Its methods work
  on the classes `Emission.FunctionDef` and `Emission.GameData`, whose fields
  are updated in place, with the source's own loops. Each method is proved to
  leave exactly the state its `LoweringSpec` function gives.

What the source promises is proved about the spec functions:

- `lowering_properties.dfy` holds the emitted shapes, error paths, loop
  stacks, label counter and placeholders.
- `label_freshness.dfy` proves that every label marker a lowering places,
  outside `asm`, is a generated name it took from the counter.
- `findings.dfy` covers the places where the source reads outside its list or
  calls through the table's null handler.

The other files hold the data model:

- `values.dfy`: values, list trees, opcode metadata, the instruction type and
  label names.
- `emission.dfy`: the emission target, the diagnostics and the state record.
- `statements.dfy`: the reserved-word table, its lookup and the list-size
  check.

Every spec function ensures `Grows(st, r)`. That is, the stream and the
diagnostics only grow, the label counter never goes back, and both loop
stacks end exactly as they began, whatever nested lists were lowered in
between. Diagnostics are global: statements lowered earlier may already have
recorded some, and the early returns of the call and implicit-opcode loops
test that global flag. The model keeps that behaviour.

## Model

| member | source | states |
|---|---|---|
| Values.TypeNumber | builder/expression.cpp:462-463 | the kind tag pushed before `New` is 3 for a list and 2 for a string (the positions of `List` and `String` in the kind enumeration) |
| Values.LabelNameInjective | builder/expression.cpp:203-206 | two generated label names `__label_<n>` are equal exactly when their numbers are equal |
| Emission.GameData.AddError | builder/expression.cpp:185-187 | recording a diagnostic appends exactly that diagnostic and changes nothing else |
| Emission.FunctionDef.AddValue | builder/expression.cpp:164-168 | appends one pushed value to the stream and nothing else |
| Emission.FunctionDef.AddOpcode | builder/expression.cpp:170 | appends one opcode to the stream and nothing else |
| Emission.FunctionDef.AddLabel | builder/expression.cpp:394 | appends one label marker to the stream and nothing else |
| Emission.FunctionDef.FreshLabel | builder/expression.cpp:203-206 | returns `__label_<n>` for the current counter `n` and advances the counter by exactly one |
| Statements.FindStatement | builder/expression.cpp:175-176 | the index found lies between the start and the table's length, and when it is inside the table its entry is named by the word |
| Statements.FindStatementFirst | builder/expression.cpp:175-176 | no entry before the index found is named by the word, so the lookup returns the first match |
| Statements.TableNamesDistinct | builder/expression.cpp:41-59 | the names in the reserved-word table are pairwise distinct, so a word matches at most one entry |
| Statements.GetReservedWord | builder/expression.cpp:62-67 | the loop returns an entry named by the word when there is one and the empty-name entry 0 otherwise, always an entry of the table |
| LoweringSpec.Pop | builder/expression.cpp:598-599 | popping a loop stack removes exactly its most recently pushed entry |
| LoweringSpec.WithPrintHead | builder/expression.cpp:643-646 | a string-headed list gains one leading `print` reserved word, and its original values follow unchanged |
| LoweringSpec.ProcessValue | builder/expression.cpp:607-628 | lowering one operand only grows the stream and diagnostics and leaves the loop stacks as they were |
| LoweringSpec.ProcessList | builder/expression.cpp:630-664 | lowering an expression only grows the stream and diagnostics and leaves the loop stacks as they were |
| LoweringSpec.HandleCallStmt | builder/expression.cpp:150-171 | a call only grows the state |
| LoweringSpec.CallOperands | builder/expression.cpp:154-162 | the operand loop only grows the state, and when it stops early diagnostics have been recorded |
| LoweringSpec.HandleAsmStmt | builder/expression.cpp:100-148 | an implicit opcode only grows the state |
| LoweringSpec.StoreTarget | builder/expression.cpp:125-134 | the first operand of `Store`/`GetOption` contributes at most one value |
| LoweringSpec.OpcodeOperands | builder/expression.cpp:123-143 | the operand loop only grows the state, and when it stops early diagnostics have been recorded |
| LoweringSpec.HandleReservedStmt | builder/expression.cpp:173-188 | a reserved-word statement only grows the state |
| LoweringSpec.Dispatch | builder/expression.cpp:177 | every handler only grows the state |
| LoweringSpec.StmtAnd | builder/expression.cpp:195-220 | `and` only grows the state |
| LoweringSpec.StmtOr | builder/expression.cpp:288-313 | `or` only grows the state |
| LoweringSpec.ShortCircuitTail | builder/expression.cpp:213-219 | the tail of `and`/`or` only appends to the stream |
| LoweringSpec.ShortCircuitOperands | builder/expression.cpp:208-212 | the operand loop of `and`/`or` only grows the state |
| LoweringSpec.StmtAsm | builder/expression.cpp:222-286 | `asm` only grows the state |
| LoweringSpec.AsmOperands | builder/expression.cpp:223-285 | the `asm` loop only grows the state |
| LoweringSpec.AsmNext | builder/expression.cpp:228-266 | each `asm` step moves forward by one or two entries and never past one beyond the end |
| LoweringSpec.AsmEffect | builder/expression.cpp:226-284 | each `asm` step only grows the state |
| LoweringSpec.AsmRetag | builder/expression.cpp:236 | the list after `asm` differs from the input only by `LocalVar` entries retagged `VarRef`, each right after an indirection |
| LoweringSpec.RetagStep | builder/expression.cpp:232-236 | one step changes at most the entry after the current one |
| LoweringSpec.StmtBreak | builder/expression.cpp:315-331 | `break` only grows the state |
| LoweringSpec.StmtContinue | builder/expression.cpp:333-349 | `continue` only grows the state |
| LoweringSpec.StmtWhile | builder/expression.cpp:572-600 | `while` leaves both loop stacks exactly as it found them, whatever its body lowers |
| LoweringSpec.StmtDoWhile | builder/expression.cpp:375-407 | `do_while` leaves both loop stacks exactly as it found them, whatever its body lowers |
| LoweringSpec.StmtIf | builder/expression.cpp:409-435 | `if` only grows the state |
| LoweringSpec.StmtInc | builder/expression.cpp:437-459 | `inc` only grows the state |
| LoweringSpec.StmtDec | builder/expression.cpp:351-373 | `dec` only grows the state |
| LoweringSpec.AdjustVariable | builder/expression.cpp:351-373 | the shared body of `inc`/`dec` only grows the state |
| LoweringSpec.StmtList | builder/expression.cpp:461-473 | `list` only grows the state |
| LoweringSpec.StmtString | builder/expression.cpp:490-502 | `string` only grows the state |
| LoweringSpec.NewContainer | builder/expression.cpp:461-473 | the shared body of `list`/`string` only grows the state |
| LoweringSpec.ContainerOperands | builder/expression.cpp:465-472 | the append loop only grows the state |
| LoweringSpec.StmtReturn | builder/expression.cpp:475-488 | `return` only grows the state |
| LoweringSpec.StmtOption | builder/expression.cpp:504-528 | `option` only grows the state |
| LoweringSpec.OptionalOperand | builder/expression.cpp:510-526 | one optional slot only grows the state |
| LoweringSpec.StmtPrint | builder/expression.cpp:530-540 | `print` only grows the state |
| LoweringSpec.StmtPrintUf | builder/expression.cpp:542-555 | `print_uf` only grows the state |
| LoweringSpec.SayOperands | builder/expression.cpp:536-539 | the print loop only grows the state |
| LoweringSpec.StmtProc | builder/expression.cpp:557-570 | `proc` only grows the state |
| LoweringSpec.ProcOperands | builder/expression.cpp:564-569 | the sequencing loop only grows the state |
| Lowering.ProcessValue | builder/expression.cpp:607-628 | the state after `process_value` is `LoweringSpec.ProcessValue` of the state before |
| Lowering.ProcessList | builder/expression.cpp:630-664 | the state after `process_list` is `LoweringSpec.ProcessList` of the state before, including the print of a string-headed list with its inserted head |
| Lowering.HandleCallStmt | builder/expression.cpp:150-171 | the state after the call is `LoweringSpec.HandleCallStmt` of the state before |
| Lowering.CallOperands | builder/expression.cpp:154-162 | the reverse operand loop, with its early return on recorded diagnostics, yields `LoweringSpec.CallOperands` and whether it stopped |
| Lowering.HandleAsmStmt | builder/expression.cpp:100-148 | the state after an implicit opcode is `LoweringSpec.HandleAsmStmt` of the state before |
| Lowering.OpcodeOperands | builder/expression.cpp:123-143 | the reverse operand loop yields `LoweringSpec.OpcodeOperands` and whether it stopped |
| Lowering.HandleReservedStmt | builder/expression.cpp:173-188 | the table loop yields `LoweringSpec.HandleReservedStmt` of the state before |
| Lowering.Dispatch | builder/expression.cpp:177 | calling a handler yields `LoweringSpec.Dispatch` of the state before |
| Lowering.StmtAnd | builder/expression.cpp:195-220 | the state after `and` is `LoweringSpec.StmtAnd` of the state before |
| Lowering.StmtOr | builder/expression.cpp:288-313 | the state after `or` is `LoweringSpec.StmtOr` of the state before |
| Lowering.ShortCircuitOperands | builder/expression.cpp:208-212 | the operand loop of `and`/`or` yields `LoweringSpec.ShortCircuitOperands` |
| Lowering.StmtAsm | builder/expression.cpp:222-286 | the `asm` loop yields `LoweringSpec.StmtAsm` of the state before and returns the list with its indirect operands retagged |
| Lowering.AsmOperand | builder/expression.cpp:224-284 | one `asm` step yields `LoweringSpec.AsmEffect`, the next index and the list after its retag |
| Lowering.StmtBreak | builder/expression.cpp:315-331 | the state after `break` is `LoweringSpec.StmtBreak` of the state before |
| Lowering.StmtContinue | builder/expression.cpp:333-349 | the state after `continue` is `LoweringSpec.StmtContinue` of the state before |
| Lowering.StmtWhile | builder/expression.cpp:572-600 | the state after `while`, with its pushes and pops of the loop stacks, is `LoweringSpec.StmtWhile` of the state before |
| Lowering.StmtDoWhile | builder/expression.cpp:375-407 | the state after `do_while` is `LoweringSpec.StmtDoWhile` of the state before |
| Lowering.StmtIf | builder/expression.cpp:409-435 | the state after `if` is `LoweringSpec.StmtIf` of the state before |
| Lowering.StmtInc | builder/expression.cpp:437-459 | the state after `inc` is `LoweringSpec.StmtInc` of the state before |
| Lowering.StmtDec | builder/expression.cpp:351-373 | the state after `dec` is `LoweringSpec.StmtDec` of the state before |
| Lowering.AdjustVariable | builder/expression.cpp:351-373 | the shared body of `inc`/`dec` yields `LoweringSpec.AdjustVariable` |
| Lowering.StmtList | builder/expression.cpp:461-473 | the state after `list` is `LoweringSpec.StmtList` of the state before |
| Lowering.StmtString | builder/expression.cpp:490-502 | the state after `string` is `LoweringSpec.StmtString` of the state before |
| Lowering.NewContainer | builder/expression.cpp:461-473 | creating the container and appending the operands yields `LoweringSpec.NewContainer` |
| Lowering.ContainerOperands | builder/expression.cpp:465-472 | the append loop yields `LoweringSpec.ContainerOperands` of the state before |
| Lowering.StmtReturn | builder/expression.cpp:475-488 | the state after `return` is `LoweringSpec.StmtReturn` of the state before |
| Lowering.StmtOption | builder/expression.cpp:504-528 | the state after `option` is `LoweringSpec.StmtOption` of the state before |
| Lowering.OptionalOperand | builder/expression.cpp:510-526 | one optional slot yields `LoweringSpec.OptionalOperand` |
| Lowering.StmtPrint | builder/expression.cpp:530-540 | the print loop yields `LoweringSpec.StmtPrint` of the state before |
| Lowering.StmtPrintUf | builder/expression.cpp:542-555 | the state after `print_uf` is `LoweringSpec.StmtPrintUf` of the state before |
| Lowering.StmtProc | builder/expression.cpp:557-570 | the sequencing loop yields `LoweringSpec.StmtProc` of the state before |
| LoweringProperties.LeafLowering | builder/expression.cpp:625-626 | an operand that is neither nested nor rejected is lowered to a push of itself |
| LoweringProperties.FreshLabels | builder/expression.cpp:203-206 | names taken from the counter at `n` onwards differ from each other and from every name numbered below them |
| LabelFreshness.NewLabelsFresh | builder/expression.cpp:203-206 | every label marker that lowering an `asm`-free list appends is `__label_<n>` for an `n` between the counter before and the counter after |
| LabelFreshness.NoRepeatedLabel | builder/expression.cpp:630-664 | if every marker already emitted is a generated name below the counter, lowering an `asm`-free list keeps that so and places no marker whose name an earlier marker already has |
| LabelFreshness.ValueLabels | builder/expression.cpp:607-628 | lowering an operand with no `asm` inside places only markers named from the counter's range |
| LabelFreshness.ListLabels | builder/expression.cpp:630-664 | lowering an `asm`-free list places only markers named from the counter's range |
| LabelFreshness.CallLabels | builder/expression.cpp:150-171 | a call places only the markers its nested operands and callee place |
| LabelFreshness.CallOperandsLabels | builder/expression.cpp:154-162 | the call's operand loop places only the markers its nested operands place |
| LabelFreshness.OpcodeLabels | builder/expression.cpp:100-147 | an implicit opcode places only the markers its nested operands place |
| LabelFreshness.OpcodeOperandsLabels | builder/expression.cpp:123-143 | the implicit opcode's operand loop places only the markers its nested operands place |
| LabelFreshness.StoreLabels | builder/expression.cpp:125-134 | the store target of `Store`/`GetOption` places no marker |
| LabelFreshness.ReservedLabels | builder/expression.cpp:173-187 | a reserved word other than `asm` places only the markers its handler places |
| LabelFreshness.DispatchLabels | builder/expression.cpp:176-181 | every handler except `asm` places only markers named from the counter's range |
| LabelFreshness.JumpLabels | builder/expression.cpp:315-349 | `break` and `continue` place no marker |
| LabelFreshness.AndLabels | builder/expression.cpp:195-220 | `and` places its two labels under the two numbers it takes from the counter, besides its operands' markers |
| LabelFreshness.OrLabels | builder/expression.cpp:288-313 | `or` places its two labels under the two numbers it takes from the counter, besides its operands' markers |
| LabelFreshness.TailLabels | builder/expression.cpp:213-219 | the tail of `and`/`or` places the labels numbered `n + 1` and `n` |
| LabelFreshness.ShortCircuitOperandsLabels | builder/expression.cpp:208-212 | the operand loop of `and`/`or` places only its operands' markers |
| LabelFreshness.WhileLabels | builder/expression.cpp:572-600 | `while` places its start and after labels under the two numbers it takes from the counter |
| LabelFreshness.DoWhileLabels | builder/expression.cpp:375-407 | `do_while` places its start, condition and after labels under the three numbers it takes from the counter |
| LabelFreshness.IfLabels | builder/expression.cpp:409-435 | `if` places its else and after labels under the two numbers it takes from the counter |
| LabelFreshness.AdjustLabels | builder/expression.cpp:437-459 | `inc`/`dec` place only the markers of their operands |
| LabelFreshness.ContainerLabels | builder/expression.cpp:461-473 | `list`/`string` place only the markers of their operands |
| LabelFreshness.ContainerOperandsLabels | builder/expression.cpp:465-472 | the append loop places only the markers of its operands |
| LabelFreshness.ReturnLabels | builder/expression.cpp:475-488 | `return` places only the markers of its operand |
| LabelFreshness.OptionLabels | builder/expression.cpp:504-528 | `option` places only the markers of its operands |
| LabelFreshness.OptionalLabels | builder/expression.cpp:510-526 | an optional slot places only the markers of its operand |
| LabelFreshness.PrintLabels | builder/expression.cpp:530-540 | `print` places only the markers of its operands |
| LabelFreshness.PrintUfLabels | builder/expression.cpp:542-555 | `print_uf` places only the markers of its operands |
| LabelFreshness.SayOperandsLabels | builder/expression.cpp:536-539 | the print loop places only the markers of its operands |
| LabelFreshness.ProcLabels | builder/expression.cpp:557-570 | `proc` places only the markers of its operands |
| LabelFreshness.ProcOperandsLabels | builder/expression.cpp:564-569 | the sequencing loop of `proc` places only the markers of its operands |
| LoweringProperties.CallOperandsLeaves | builder/expression.cpp:154-162 | operands that are not nested expressions are pushed from the last one down to the first, and the loop does not stop |
| LoweringProperties.CallLeaves | builder/expression.cpp:150-171 | `(f a1 ... an)` emits an ... a1, the operand count n, the callee and `Call` |
| LoweringProperties.CallStopsOnPriorErrors | builder/expression.cpp:157-158 | with diagnostics already recorded, a call whose last operand is nested emits that operand's lowering and nothing more |
| LoweringProperties.OpcodeStopsOnPriorErrors | builder/expression.cpp:136-138 | with diagnostics already recorded, an accepted implicit opcode whose last operand is nested emits that operand's lowering and nothing more |
| LoweringProperties.OpcodeOperandsLeaves | builder/expression.cpp:123-143 | plain operands of an opcode other than `Store`/`GetOption` are pushed last first |
| LoweringProperties.AsmRejected | builder/expression.cpp:108-121 | an opcode forbidden as an expression, or one whose operand count differs from its declared inputs while `inputs + 1 < 255`, records one diagnostic at the head and emits nothing |
| LoweringProperties.AsmLeaves | builder/expression.cpp:123-147 | an accepted implicit opcode emits its operands last first, the opcode, and one `None` value exactly when it declares no outputs |
| LoweringProperties.StoreFirstOperand | builder/expression.cpp:125-134 | the first operand of `Store`/`GetOption` is never lowered: a local variable becomes a reference to the same slot, `None` passes only for `GetOption`, anything else records a diagnostic |
| LoweringProperties.StoreBadTargetContinues | builder/expression.cpp:129-131 | a bad `Store` target records its diagnostic and the value operand and the opcode are still emitted |
| LoweringProperties.ReservedLookup | builder/expression.cpp:175-176 | a word named by a real table entry selects exactly that entry |
| LoweringProperties.ReservedDispatch | builder/expression.cpp:176-181 | a known word emits its handler's output, followed by exactly one `PushNone` when its entry says it leaves no result |
| LoweringProperties.UnknownWord | builder/expression.cpp:185-187 | a word the table does not name records one diagnostic at the head and emits nothing |
| LoweringProperties.ShortCircuitLeaves | builder/expression.cpp:208-212 | each plain operand of `and`/`or` is followed by a conditional jump to the shared target |
| LoweringProperties.AndLeaves | builder/expression.cpp:195-220 | `and` emits each operand with a `JumpZero` to the false label, then 1, a jump to after, the false label, 0 and the after label, and takes exactly two labels |
| LoweringProperties.OrLeaves | builder/expression.cpp:288-313 | `or` is the mirror image: `JumpNotZero` to the true label, with 0 and 1 swapped |
| LoweringProperties.ShortCircuitArity | builder/expression.cpp:196-200 | `and`/`or` emit nothing exactly when they have fewer than two operands, and then record one diagnostic |
| LoweringProperties.WhileShape | builder/expression.cpp:572-600 | `while` emits start label, condition, `JumpZero` to after, the body with its value not popped, a jump to start, after label; the loop stacks are restored |
| LoweringProperties.WhileLeaves | builder/expression.cpp:572-600 | the same shape for a plain body: no `StackPop` follows the body |
| LoweringProperties.DoWhileShape | builder/expression.cpp:375-407 | `do_while` emits start label, the body, `StackPop`, condition label, condition, `JumpZero` to after, a jump to start, after label, and takes three labels |
| LoweringProperties.DoWhileLeaves | builder/expression.cpp:375-407 | the same shape for a plain body, with the `StackPop` after it |
| LoweringProperties.BreakContinueTargets | builder/expression.cpp:315-349 | `break`/`continue` emit nothing exactly when they have an operand or no loop encloses them; otherwise they push the innermost target and `Jump`; with an operand the one diagnostic is at that operand |
| LoweringProperties.BreakStatement | builder/expression.cpp:176-181 | `(break)` inside a loop emits a jump to the innermost exit followed by its `PushNone` placeholder |
| LoweringProperties.ContinueStatement | builder/expression.cpp:176-181 | `(continue)` inside a loop emits a jump to the innermost continue target followed by its `PushNone` placeholder |
| LoweringProperties.BreakInWhileBody | builder/expression.cpp:584-599 | a `break` in a `while` body jumps to the label placed after that loop |
| LoweringProperties.ContinueInDoWhileBody | builder/expression.cpp:389-406 | a `continue` in a `do_while` body jumps to the condition label, so the condition is still tested |
| LoweringProperties.IfLeaves | builder/expression.cpp:409-435 | `if` emits condition, `JumpZero` to else, then-branch, a jump to after, else label, the else-branch or 0, after label, and takes two labels |
| LoweringProperties.LabelCounter | builder/expression.cpp:203-206 | `and`, `or`, `if` and `while` advance the counter by at least two and `do_while` by at least three; nested operands may take more |
| LoweringProperties.AdjustDefaultIsOne | builder/expression.cpp:437-459 | `(inc x)` emits exactly what `(inc x 1)` emits: amount, variable, operation, reference to the slot, `Store` |
| LoweringProperties.AdjustRejected | builder/expression.cpp:351-373 | `inc`/`dec` emit nothing exactly when the size is outside 2..3 or the target is not a local variable, with the matching diagnostic |
| LoweringProperties.ContainerLeaves | builder/expression.cpp:465-472 | each plain operand is appended to the container on the stack: duplicate, operand, 0, 1, swap, append |
| LoweringProperties.ContainerShape | builder/expression.cpp:461-473 | the shared body of `list`/`string` pushes the kind tag and `New`, then appends every plain operand in order |
| LoweringProperties.ListShape | builder/expression.cpp:461-473 | `list` creates a list (kind tag 3) and appends every operand in order with `ListPush` |
| LoweringProperties.StringShape | builder/expression.cpp:490-502 | `string` creates a string (kind tag 2) and appends every operand in order with `StringAppend` |
| LoweringProperties.SayLeaves | builder/expression.cpp:536-539 | each plain operand is printed by a `Say` right after it is pushed |
| LoweringProperties.PrintShapes | builder/expression.cpp:530-555 | `print`/`print_uf` without operands record a diagnostic; otherwise every operand is printed in order, the first one by `SayUCFirst` for `print_uf` |
| LoweringProperties.StringHeadPrints | builder/expression.cpp:643-647 | a string-headed list prints all its values, the string first, and then pushes `PushNone` |
| LoweringProperties.ProcLeaves | builder/expression.cpp:564-569 | `proc` emits its operands in order, each but the last followed by `StackPop` |
| LoweringProperties.ReturnShapes | builder/expression.cpp:475-488 | `return` pushes its operand or `None`, then `Return`; with more than one operand it records a diagnostic and emits nothing |
| LoweringProperties.OptionShape | builder/expression.cpp:504-528 | `option` pushes exactly four values, absent operands as `None`, then `AddOption` |
| LoweringProperties.AsmIgnoresErrors | builder/expression.cpp:223-285 | the code `asm` emits does not depend on diagnostics recorded before or during it: errors never stop its loop |
| LoweringProperties.AsmPlainOperands | builder/expression.cpp:241-252 | plain `asm` operands are pushed in order with no opcode added |
| LoweringProperties.AsmForbiddenStillEmits | builder/expression.cpp:253-261 | an opcode forbidden in `asm` records a diagnostic and is still emitted |
| LoweringProperties.AsmStrayColon | builder/expression.cpp:272-283 | a colon on its own records "unexpected value" at index 1 and "invalid label" later, and emits nothing |
| LoweringProperties.AsmSymbols | builder/expression.cpp:262-271 | a symbol followed by a colon places a label and consumes the colon; otherwise it pushes the symbol |
| LoweringProperties.AsmIndirection | builder/expression.cpp:227-240 | `(asm * x)` pushes `x` as a reference and leaves `x` retagged `VarRef` in the list |
| LoweringProperties.ValueErrors | builder/expression.cpp:607-628 | reserved words, indirections and opcodes as operands are invalid values, symbols undefined, and a nested expression emits its list's lowering |
| LoweringProperties.ListHeads | builder/expression.cpp:630-664 | an empty list emits nothing; a symbol head and a head kind that cannot start an expression each record one diagnostic at the head |
| Findings.ReadOrigin | builder/expression.cpp:197 | reading entry `k`'s origin is out of range exactly when `k` is not below the list's size |
| Findings.ShortCircuitArityReadsPastEnd | builder/expression.cpp:196-197 | `(and)` and `(or)` reach the arity diagnostic and the origin read there is past the end |
| Findings.ShortCircuitArityOriginCorrected | builder/expression.cpp:288-292 | the corrected diagnostic is at an entry of the list, the same one the code reads whenever that read is in range |
| Findings.OutsideLoopReadsPastEnd | builder/expression.cpp:316-326 | every list that reaches the outside-loop diagnostic of `break`/`continue` has only its head, so the origin read is past the end |
| Findings.OutsideLoopOriginCorrected | builder/expression.cpp:340-344 | the corrected diagnostic is at the statement's head and nothing is emitted |
| Findings.EmptyWordCallsNullHandler | builder/expression.cpp:41-42 | a reserved word with empty text matches the sentinel entry, whose handler is null |
| Findings.EmptyWordReported | builder/expression.cpp:173-187 | the corrected lookup reports an empty word as an unknown command and emits nothing |

## Left out

- `dump_list` (builder/expression.cpp:73-85) writes a list to an output stream; it is output only and nothing in the pass reads it.
- The text of diagnostics, built with string streams, is left out; a diagnostic is a kind tag and an origin. `dec` reports its errors under the word "inc", as the source's messages do.
- Instruction origins are not recorded in the stream; origins are carried only in diagnostics.
- What the emitted opcodes do at run time, and how labels are resolved to addresses, belong to the virtual machine and are not part of this model.
- Values.TypeNumber: the tags 2 and 3 assume the order of the value kinds (`None`, `Integer`, `String`, `List`, ...), which is declared outside `builder/expression.cpp`; that declaration is not part of this model.
- The contents of the opcode table come from outside the pass. An opcode is a record of name, declared inputs and outputs, permissions and code, taken as given. The numeric kind tags appear only through `Values.TypeNumber`.
- `inputs` is unbounded in the model. Only the conversion of `inputs + 1` to an unsigned 32-bit count is written out. A declared input count outside the 32-bit range is not modelled.
- A user label in `asm` spelled like a generated name (`__label_<n>`) can collide with one. The lemmas of `LabelFreshness` are therefore stated for lists that contain no `asm` statement at any depth.
- LabelFreshness.NoRepeatedLabel: states that new markers repeat no earlier marker's name. That the labels one construct places differ from each other follows from `LoweringProperties.FreshLabels` and the shape lemmas, and is not restated for nested lists.
- The source changes the input tree in place in two places. The model returns those changes instead, and they are not written back into the enclosing tree:
  - the `asm` retag is the result of `Lowering.StmtAsm`;
  - the inserted `print` head is the list `Lowering.ProcessList` prints.

  No later step of the pass reads either change.
- The conversion of `values.size() - 1` to `int` for the operand count of a call is taken to be exact; lists of more than 2^31 entries are not modelled.
- tests/testing.h holds test-assertion helpers only and is not part of this model.
- LoweringProperties.CallLeaves, AsmLeaves, AndLeaves, OrLeaves, WhileLeaves, DoWhileLeaves, IfLeaves, ContainerShape, ListShape, StringShape, PrintShapes, ReturnShapes and OptionShape state the emitted code for plain operands. A nested operand emits its own lowering in that place; `WhileShape` and `DoWhileShape` state this for a general body, and for other general operands the spec functions themselves are the statement.
- LoweringProperties.LabelCounter states "at least" two or three, because nested operands take labels of their own; the exact count for plain operands is part of the shape lemmas.

## Findings

| source | as written | input that shows it | evidently intended | confidence | as-written member | corrected member |
|---|---|---|---|---|---|---|
| builder/expression.cpp:196-197 (and :289-290) | `and`/`or` with fewer than two operands report at `values[1].origin` | `(and)` or `(or)`: a list of size 1, so index 1 is past the end | report at the first operand when there is one, otherwise at the head | medium, not executed | Findings.ShortCircuitArityReadsPastEnd | Findings.ShortCircuitArityOriginCorrected |
| builder/expression.cpp:322-323 (and :340-341) | `break`/`continue` outside any loop report at `values[1].origin` right after checking the size is exactly 1 | `(break)` at the top level of a function body | report at the statement's head, `values[0].origin` | high, not executed | Findings.OutsideLoopReadsPastEnd | Findings.OutsideLoopOriginCorrected |
| builder/expression.cpp:41-42 with :175-177 | the lookup compares against every entry, sentinel included, and calls the matching handler | a reserved word whose text is empty matches entry 0 and calls its null handler | treat the sentinel as no match and report an unknown command | low (depends on whether the parser can produce an empty reserved word), not executed | Findings.EmptyWordCallsNullHandler | Findings.EmptyWordReported |
