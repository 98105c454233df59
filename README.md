# Compilador in Dafny

A model of the toy compiler Compilador, whole pipeline except its I/O:

    source text --Lexer--> tokens --Parser--> syntax tree --SemanticAnalyzer--> checked tree
                --IRBuilder--> three-address code --Optimizer--> optimized code
                --CodegenUnix / CodegenWindows--> NASM assembly text

Each Rust file of the core becomes one Dafny module, in the Rust file's own form:

- `ast.dfy`, `ir.dfy`: the syntax tree and the intermediate representation, as datatypes.
- `types.dfy`: the structural type relation, as functions and lemmas.
- `lexer.dfy`, `parser.dfy`, `semantic.dfy`, `builder.dfy`: the stateful objects `Lexer`, `Parser`,
  `SemanticAnalyzer` and `IRBuilder`. Each is a class whose fields the methods update the way the Rust
  methods do. Each method is proved equal to a specification function of the old state:
  - `Scan` for the lexer;
  - the `…At` functions of `Parser` for the parser;
  - `CheckStmt` / `CheckBlock` / `CheckProgram` for the analyzer;
  - `LowerExpr` / `LowerStmt` / `BuildAll` of module `Lowering` for the builder.

  The properties of the source are then lemmas about those functions.
- `optimizer.dfy`: the four passes as methods with the Rust loops. Each is proved equal to a function of
  the old instruction list (`FoldAll`, `Retain`, `CseAll`), and the pass properties are lemmas about those functions.
- `codegen_unix.dfy`, `codegen_windows.dfy`: the emitters as loops appending to an output string, proved
  equal to the text functions `UnixAsm` / `WindowsAsm`.
- `decimal.dfy`: decimal text of integers, i.e. what `format!`/`to_string` produce in the builder's names and
  the assembly's constants.
- `wrappers.dfy`: `Option` and `Result`; a Rust `anyhow` error is `Err(message)`, with the message text of the source.

The model keeps the code's behaviour where it is surprising, and states it as lemmas:
- Source parsing: `Parser::new` reads the first token from a clone of the lexer, so only a program opening
  with `(`, `[` or nothing can parse (`ParseSourceFirstToken`).
- Parser quirks: an `else` is never reached (`IfHasNoElse`); a `for` never parses (`ForNeverParses`).
- Dead-code removal ignores reads by `Assign` (`DeadCodeIgnoresAssignReads`).
- A panic is modelled as an error carrying the panic's message: a number too large for `i64` in
  `read_number`, a first token that does not lex in `Parser::new` (`ParseSource`), and the `unwrap`s of `parse_for`.
- Code generation: every temporary is `rax`, and a local's stack slot comes from the last character of its name.
- Windows: the Windows emitter lowers only `Add`, and a user `main` yields a second `main:` label.

## Model

| member | source | states |
|---|---|---|
| Types.CompatibleIffEqual | Compilador/src/types/mod.rs:11-20 | `is_compatible(a, b)` holds exactly when `a` and `b` are structurally equal types |
| Types.CompatibleReflexive | Compilador/src/types/mod.rs:11-20 | every type is compatible with itself |
| Types.CompatibleSymmetric | Compilador/src/types/mod.rs:11-20 | compatibility does not depend on the order of its arguments |
| Types.ComparableExactly | Compilador/src/types/mod.rs:22-29 | two types are comparable exactly when they are equal and int, bool or string; arrays and void never are |
| Types.ComparableImpliesCompatible | Compilador/src/types/mod.rs:11-29 | comparable types are always compatible |
| Types.DefaultValueZeroExactlyForScalars | Compilador/src/types/mod.rs:31-39 | the default value text is `0` exactly for int and bool |
| Decimal.NatToString | Compilador/src/ir/builder.rs:178 | the decimal text of a counter is a digit string without leading zeros that denotes the counter |
| Decimal.CanonicalIsNatText | Compilador/src/ir/builder.rs:178 | every digit string without leading zeros is the decimal text of its own value |
| Decimal.ParseNatRoundTrip | Compilador/src/ir/builder.rs:178 | reading a counter's text gives the counter back, and no other text reads as that counter |
| Decimal.IntToString | Compilador/src/codegen/unix.rs:107 | `i64::to_string` yields a non-empty text (its meaning is the next two rows) |
| Decimal.IntToStringRoundTrip | Compilador/src/codegen/unix.rs:107 | reading back the text of an integer, with its minus sign, gives the integer |
| Decimal.IntToStringInjective | Compilador/src/codegen/unix.rs:107 | distinct integers have distinct texts |
| Lowering.TempNameInjective | Compilador/src/ir/builder.rs:177-181 | `t<n>` names are equal only for equal counters |
| Lowering.TempRangeDistinct | Compilador/src/ir/builder.rs:177-181 | the temporaries issued while the counter runs over a range are pairwise distinct |
| Lowering.TempRangesDisjoint | Compilador/src/ir/builder.rs:177-181 | consecutive counter ranges issue disjoint temporaries that together make up the joint range |
| Lowering.LabelNameInjective | Compilador/src/ir/builder.rs:183-187 | `label_<n>` names are equal only for equal counters, so labels are pairwise distinct |
| Lowering.LabelIndexOfName | Compilador/src/ir/builder.rs:183-187 | the counter a label was formed from can be read back from the label |
| Lowering.StringNameInjective | Compilador/src/ir/builder.rs:129-134 | `str_<n>` names are equal only for equal counters |
| Lowering.LowerExpr | Compilador/src/ir/builder.rs:125-175 | lowering an expression never issues a label and never moves the temp or string counter back |
| Lowering.LowerArgs | Compilador/src/ir/builder.rs:160-164 | call arguments are lowered left to right into one value per argument; counters only grow |
| Lowering.LowerStmt | Compilador/src/ir/builder.rs:65-123 | lowering a statement never moves a counter back |
| Lowering.LowerBlock | Compilador/src/ir/builder.rs:49-51 | lowering a statement list in order never moves a counter back |
| Lowering.ExprValueShape | Compilador/src/ir/builder.rs:127-173 | literals, names and other kinds append nothing; `true`/`false` give 1/0, a name its local or `Global`, other kinds `Const(0)`; a string takes the next `str_k` and records its text; an infix or call ends with one instruction writing a fresh temporary, its value |
| Lowering.IfStmtCode | Compilador/src/ir/builder.rs:73-95 | an `if` lowers to condition, `JumpIfZero(else)`, then-block, `Jump(end)`, `Label(else)`, else-block, `Label(end)`, with two fresh labels |
| Lowering.WhileStmtCode | Compilador/src/ir/builder.rs:96-109 | a `while` lowers to `Label(start)`, condition, `JumpIfZero(end)`, body, `Jump(start)`, `Label(end)`, with two fresh labels |
| Lowering.ExprCodeLabelFree | Compilador/src/ir/builder.rs:125-175 | the code of an expression defines no label and jumps nowhere |
| Lowering.ArgsCodeLabelFree | Compilador/src/ir/builder.rs:160-164 | the code of call arguments defines no label and jumps nowhere |
| Lowering.StmtCodeLabels | Compilador/src/ir/builder.rs:65-123 | a statement's code defines each label once, jumps only to its own labels, and uses only labels issued while it was built |
| Lowering.IfCodeLabels | Compilador/src/ir/builder.rs:73-95 | the same for an `if` |
| Lowering.WhileCodeLabels | Compilador/src/ir/builder.rs:96-109 | the same for a `while` |
| Lowering.BlockCodeLabels | Compilador/src/ir/builder.rs:49-51 | the same for a statement list |
| Lowering.ExprCodeTemps | Compilador/src/ir/builder.rs:125-175 | an expression's code writes exactly the temporaries issued while it was lowered, in the order issued, each once |
| Lowering.ArgsCodeTemps | Compilador/src/ir/builder.rs:160-164 | the same for call arguments |
| Lowering.StmtCodeTemps | Compilador/src/ir/builder.rs:65-123 | the same for a statement: `Let`, `Return`, `Print`, jumps and labels write no temporary of their own |
| Lowering.IfCodeTemps | Compilador/src/ir/builder.rs:73-95 | the same for an `if` |
| Lowering.WhileCodeTemps | Compilador/src/ir/builder.rs:96-109 | the same for a `while` |
| Lowering.BlockCodeTemps | Compilador/src/ir/builder.rs:49-51 | the same for a statement list |
| Lowering.FindMain | Compilador/src/ir/builder.rs:58 | the first built function named `main`, and none exactly when no function has that name |
| Lowering.ParamNames | Compilador/src/ir/builder.rs:43 | the parameter names of a function, in order, without their types |
| Lowering.BuildTop | Compilador/src/ir/builder.rs:37-63 | one top-level statement never moves the label counter back |
| Lowering.BuildTopMain | Compilador/src/ir/builder.rs:37-63 | after one top-level statement a `main` exists exactly when it existed before or the statement is the function `main` |
| Lowering.MainBuiltAfter | Compilador/src/ir/builder.rs:26-29 | after a statement list a `main` exists exactly when it existed before or the list declares one |
| Lowering.BuildTopLabels | Compilador/src/ir/builder.rs:37-63 | label well-formedness of every built function is kept by a top-level statement, including code appended to `main` |
| Lowering.BuildAllLabels | Compilador/src/ir/builder.rs:26-29 | label well-formedness is kept through a statement list |
| Lowering.BuildLabelsWellFormed | Compilador/src/ir/builder.rs:26-35 | in every function a fresh builder produces, each label is defined once and every jump names a label of the same function |
| Lowering.BuildTopTemps | Compilador/src/ir/builder.rs:37-63 | a top-level statement keeps every built function writing each temporary at most once, all issued before the counter, including code appended to `main` |
| Lowering.BuildAllTemps | Compilador/src/ir/builder.rs:26-29 | the same through a statement list |
| Lowering.BuildTempsDistinct | Compilador/src/ir/builder.rs:26-35 | no function a fresh builder produces writes a temporary twice |
| IrBuilder.IRBuilder.constructor | Compilador/src/ir/builder.rs:15-24 | no functions, no current function, all counters zero, empty string table |
| IrBuilder.IRBuilder.Build | Compilador/src/ir/builder.rs:26-35 | the builder state becomes `BuildAll` of the statements; the program holds the built functions and an empty globals map; their labels are well formed and none writes a temporary twice |
| IrBuilder.IRBuilder.BuildStatement | Compilador/src/ir/builder.rs:37-63 | the state becomes `BuildTop` of the statement; a function statement leaves no current function |
| IrBuilder.IRBuilder.BuildBlock | Compilador/src/ir/builder.rs:49-51 | appends the lowering of each statement in order and updates locals and counters as `LowerBlock` says |
| IrBuilder.IRBuilder.BuildFunctionStatement | Compilador/src/ir/builder.rs:65-123 | appends exactly `LowerStmt`'s code to the function, with its new locals and counters |
| IrBuilder.IRBuilder.BuildIf | Compilador/src/ir/builder.rs:73-95 | the same for an `if` |
| IrBuilder.IRBuilder.BuildElse | Compilador/src/ir/builder.rs:88-92 | appends the else-block's lowering, or nothing without one |
| IrBuilder.IRBuilder.BuildWhile | Compilador/src/ir/builder.rs:96-109 | the same for a `while` |
| IrBuilder.IRBuilder.BuildExpression | Compilador/src/ir/builder.rs:125-175 | returns `LowerExpr`'s value and appends exactly its code; locals are untouched |
| IrBuilder.IRBuilder.BuildCall | Compilador/src/ir/builder.rs:160-172 | the same for a call |
| IrBuilder.IRBuilder.BuildArgs | Compilador/src/ir/builder.rs:161-164 | the argument values and code of `LowerArgs` |
| IrBuilder.IRBuilder.BuildArg | Compilador/src/ir/builder.rs:163 | one more argument lowered onto the ones before it |
| IrBuilder.IRBuilder.NewTemp | Compilador/src/ir/builder.rs:177-181 | returns `Temp("t" + counter)` and increments the counter |
| IrBuilder.IRBuilder.NewLabel | Compilador/src/ir/builder.rs:183-187 | returns `"label_" + counter` and increments the counter |
| Optimizer.FoldAll | Compilador/src/optimizer/mod.rs:29-54 | the folded list has the same length and each instruction is folded on its own |
| Optimizer.ConstantPropagation | Compilador/src/optimizer/mod.rs:26-55 | only the instruction list changes, and it becomes `FoldAll` of the old one |
| Optimizer.FoldChangesExactlyFoldable | Compilador/src/optimizer/mod.rs:29-54 | an instruction changes exactly when it is an `Add`/`Sub` of two constants into a temporary, and becomes `Assign(result, Const(a ± b))`; `Mul`, `Div` and non-temporary results never change |
| Optimizer.FoldAllIdempotent | Compilador/src/optimizer/mod.rs:26-55 | folding a folded list changes nothing |
| Optimizer.FoldAllPreservesRun | Compilador/src/optimizer/mod.rs:26-55 | a folded straight-line list computes the same store as the original |
| Optimizer.UsedTempsMembership | Compilador/src/optimizer/mod.rs:61-74 | a temporary is marked used exactly when some `Print`, `Return(Some)` or arithmetic operand reads it |
| Optimizer.Retain | Compilador/src/optimizer/mod.rs:76-89 | the result is no longer than the input and holds only input instructions that are kept |
| Optimizer.MarkUsed | Compilador/src/optimizer/mod.rs:92-98 | adds the operand's name to the temp set if it is a temporary, to the global set if it is a global |
| Optimizer.MarkInstruction | Compilador/src/optimizer/mod.rs:62-73 | adds exactly the names the instruction reads |
| Optimizer.MarkAll | Compilador/src/optimizer/mod.rs:61-74 | the marking loop collects exactly `UsedTemps` and `UsedGlobals` |
| Optimizer.RetainUsed | Compilador/src/optimizer/mod.rs:76-89 | the `retain` call computes `Retain` |
| Optimizer.DeadCodeElimination | Compilador/src/optimizer/mod.rs:57-90 | only the instruction list changes: each instruction occurs in the new list as often as in the old one if it is kept and not at all otherwise, in the old order |
| Optimizer.RetainIsSubsequence | Compilador/src/optimizer/mod.rs:76-89 | the output is an order-preserving subsequence of the input |
| Optimizer.RetainKeepsNonArithmetic | Compilador/src/optimizer/mod.rs:79-86 | every non-arithmetic instruction survives, in order and with its multiplicity |
| Optimizer.RetainCount | Compilador/src/optimizer/mod.rs:76-89 | `retain` is a filter: a kept instruction occurs in the output as often as in the input, one that is not kept never |
| Optimizer.RetainKeepsKept | Compilador/src/optimizer/mod.rs:76-89 | an instruction survives exactly when it is kept: only an arithmetic instruction into an unread temporary is removed |
| Optimizer.RetainUnchangedIff | Compilador/src/optimizer/mod.rs:76-89 | nothing is removed exactly when every arithmetic instruction into a temporary has a used result |
| Optimizer.DeadCodeIgnoresAssignReads | Compilador/src/optimizer/mod.rs:62-74 | in any list, an `Add` into a temporary that only an `Assign` reads is removed |
| Optimizer.CseAll | Compilador/src/optimizer/mod.rs:100-122 | the instruction count is unchanged |
| Optimizer.CseInstruction | Compilador/src/optimizer/mod.rs:104-118 | one loop step rewrites the instruction and extends the table as `CseOp` / `AddStep` say |
| Optimizer.CommonSubexpressionElimination | Compilador/src/optimizer/mod.rs:100-122 | only the instruction list changes, to `CseAll` of the old one |
| Optimizer.AddTableFirst | Compilador/src/optimizer/mod.rs:113-117 | an operand pair is in the table exactly when some `Add` into a temporary has it, and it maps to the result of the first such `Add` |
| Optimizer.CseRewritesRepeatedAdds | Compilador/src/optimizer/mod.rs:104-121 | only `Add`s into temporaries change; such an `Add` changes exactly when an earlier one has the same ordered operands, and becomes `Assign(result, first earlier result)` |
| Optimizer.CseKeyIsOrdered | Compilador/src/optimizer/mod.rs:107 | the first `Add` of the ordered pair `(a, b)` is left unchanged, whatever `Add`s of `(b, a)` precede it |
| Optimizer.OptimizeLoop | Compilador/src/optimizer/mod.rs:138-141 | returns the instructions unchanged |
| Optimizer.LoopOptimization | Compilador/src/optimizer/mod.rs:124-136 | the function is unchanged |
| Optimizer.FoldAllKeepsLabels | Compilador/src/optimizer/mod.rs:26-55 | folding keeps every label and jump target, in order |
| Optimizer.RetainKeepsLabels | Compilador/src/optimizer/mod.rs:76-89 | dead-code removal keeps every label and jump target, in order |
| Optimizer.CseAllKeepsLabels | Compilador/src/optimizer/mod.rs:100-122 | subexpression reuse keeps every label and jump target, in order |
| Optimizer.PipelineKeepsLabels | Compilador/src/optimizer/mod.rs:17-24 | the passes together keep labels and jumps, so well-formed labels stay well formed |
| Optimizer.OptimizeFunction | Compilador/src/optimizer/mod.rs:18-22 | the four passes in their fixed order on one function |
| Optimizer.Optimize | Compilador/src/optimizer/mod.rs:17-24 | every function is optimized in place; their number and order and the globals are unchanged |
| CodegenUnix.LocalOffset | Compilador/src/codegen/unix.rs:114-117 | the offset is a `usize` (below 2^64) |
| CodegenUnix.GenerateUnixAsm | Compilador/src/codegen/unix.rs:3-41 | the output is `UnixAsm`: header, each function in program order, `_start` trailer |
| CodegenUnix.EmitFunction | Compilador/src/codegen/unix.rs:12-31 | appends the function's label, prologue, instruction text and epilogue |
| CodegenUnix.EmitPrologue | Compilador/src/codegen/unix.rs:13-21 | appends `name:`, `push rbp`, `mov rbp, rsp`, and `sub rsp, 8·k` only for k > 0 locals |
| CodegenUnix.EmitInstructions | Compilador/src/codegen/unix.rs:24-26 | appends the text of each instruction in order |
| CodegenUnix.EmitTrailer | Compilador/src/codegen/unix.rs:34-38 | appends the `_start` entry point |
| CodegenUnix.Push3 | Compilador/src/codegen/unix.rs:28-30 | appends three lines in order |
| CodegenUnix.UnixFrame | Compilador/src/codegen/unix.rs:7-9 | the output starts with the header and ends with the `_start` trailer (calls `main`, exits with syscall 60, status 0) |
| CodegenUnix.UnixFunctionPlacement | Compilador/src/codegen/unix.rs:12-31 | function k's text, opening with its `name:` label, follows the texts of functions 0..k, inside the frame |
| CodegenUnix.FunctionLabelFirst | Compilador/src/codegen/unix.rs:13 | a function's text opens with its `name:` line |
| CodegenUnix.FunctionsTextAppend | Compilador/src/codegen/unix.rs:12-31 | the text of two function lists is the concatenation of their texts |
| CodegenUnix.InstrsTextAppend | Compilador/src/codegen/unix.rs:24-26 | the text of two instruction lists is the concatenation of their texts |
| CodegenUnix.InstrTextEmptyIff | Compilador/src/codegen/unix.rs:43-103 | an instruction emits nothing exactly when it is a comparison, call, `Alloc`, `ArraySet` or `ArrayGet` |
| CodegenUnix.OperandTextFaithful | Compilador/src/codegen/unix.rs:105-111 | two operands render alike exactly when they denote the same storage; every temporary is `rax`, each local is the slot from its name's last character |
| CodegenUnix.LeadChar | Compilador/src/codegen/unix.rs:105-111 | the first character tells the operand kind: sign or digit for constants, `[` for locals and globals, `r` for temporaries |
| CodegenUnix.SlotTextInjective | Compilador/src/codegen/unix.rs:108 | distinct slot offsets render differently |
| CodegenUnix.SymbolTextInjective | Compilador/src/codegen/unix.rs:109 | distinct global names render differently |
| CodegenUnix.SlotIsNotSymbol | Compilador/src/codegen/unix.rs:108-109 | a stack slot never renders like a global without a blank in its name |
| CodegenUnix.LocalSlotFromLastChar | Compilador/src/codegen/unix.rs:114-117 | locals whose names end in the same character share a slot |
| CodegenUnix.DigitLocalSlot | Compilador/src/codegen/unix.rs:114-117 | a local ending in digit d sits at `[rbp - 8·d]` |
| CodegenUnix.LocalOffsetWraps | Compilador/src/codegen/unix.rs:114-117 | a last character below `0` makes the subtraction wrap around 2^64 |
| CodegenUnix.ConstTextRoundTrip | Compilador/src/codegen/unix.rs:107 | a constant's text reads back as the constant |
| CodegenWindows.GenerateWindowsAsm | Compilador/src/codegen/windows.rs:3-38 | the output is `WindowsAsm`: header, each function in program order, entry trailer |
| CodegenWindows.EmitWindowsFunction | Compilador/src/codegen/windows.rs:12-28 | appends the label, the prologue without stack reservation, the instruction text and the epilogue |
| CodegenWindows.EmitWindowsInstructions | Compilador/src/codegen/windows.rs:21-23 | appends the text of each instruction in order |
| CodegenWindows.EmitWindowsTrailer | Compilador/src/codegen/windows.rs:31-35 | appends `main:` and the 40-byte shadow-space call of `main_func` |
| CodegenWindows.WindowsInstrIsUnixAdd | Compilador/src/codegen/windows.rs:41-54 | an `Add` renders as in the unix emitter; every other instruction renders as nothing |
| CodegenWindows.Adds | Compilador/src/codegen/windows.rs:44-52 | the `Add` instructions of a list, in order |
| CodegenWindows.WindowsInstrsAreUnixAdds | Compilador/src/codegen/windows.rs:41-54 | the Windows text of a list is the unix text of its `Add`s |
| CodegenWindows.WindowsPrologueIgnoresLocals | Compilador/src/codegen/windows.rs:13-15 | the Windows prologue equals the unix one exactly when there are no locals |
| CodegenWindows.UserMainDuplicatesEntry | Compilador/src/codegen/windows.rs:12-35 | a user function `main` puts a `main:` label in the body besides the trailer's own |
| Lexer.RunEnd | Compilador/src/lexer/mod.rs:33-53 | the loops stop at the first character past the run, and every character before it is in the run |
| Lexer.RunEndStops | Compilador/src/lexer/mod.rs:33-53 | the run ends exactly at the first character outside it |
| Lexer.Scan | Compilador/src/lexer/mod.rs:68-189 | `next_token` never moves the cursor back or past the end |
| Lexer.Dispatch | Compilador/src/lexer/mod.rs:71-187 | the token dispatch never moves the cursor back or past the end |
| Lexer.Lexer.constructor | Compilador/src/lexer/mod.rs:11-22 | cursor at 0; the current character is the first one, or NUL for empty input |
| Lexer.Lexer.Clone | Compilador/src/parser/mod.rs:12 | the copy `lexer.clone()` stands for: a fresh lexer with the same input, cursor and character |
| Lexer.Lexer.ReadChar | Compilador/src/lexer/mod.rs:24-31 | the cursor moves one forward and the current character follows it, NUL past the end |
| Lexer.Lexer.SkipRun | Compilador/src/lexer/mod.rs:33-53 | the cursor moves to the end of the run |
| Lexer.Lexer.SkipWhitespace | Compilador/src/lexer/mod.rs:33-37 | the cursor moves past the blanks |
| Lexer.Lexer.ReadIdentifier | Compilador/src/lexer/mod.rs:39-45 | returns the maximal run of letters and `_`, and the cursor follows it |
| Lexer.Lexer.ReadNumber | Compilador/src/lexer/mod.rs:47-53 | returns the value of the maximal digit run, or the `unwrap` panic as an error when it does not fit in `i64`, as `NumberAt` says |
| Lexer.Lexer.ReadString | Compilador/src/lexer/mod.rs:55-66 | returns the text up to the closing quote or the end, as `StringAt` says |
| Lexer.Lexer.ReadWithEq | Compilador/src/lexer/mod.rs:72-107 | a one-character operator, or its two-character form when `=` follows |
| Lexer.Lexer.NextToken | Compilador/src/lexer/mod.rs:68-189 | the token or error and the new cursor are `Scan` of the old cursor |
| Lexer.ScanRoundTrip | Compilador/src/lexer/mod.rs:68-189 | every printable token, after blanks and before text that does not extend it, is read back as itself, with the cursor right after it |
| Lexer.DispatchRoundTrip | Compilador/src/lexer/mod.rs:71-187 | the same, from the token's first character |
| Lexer.SymbolRoundTrip | Compilador/src/lexer/mod.rs:72-159 | each operator and punctuation token is read back from its text; `==`, `!=`, `<=`, `>=` take two characters |
| Lexer.WordRoundTrip | Compilador/src/lexer/mod.rs:164-183 | an identifier or keyword is read back from its text |
| Lexer.WordText | Compilador/src/lexer/mod.rs:164-182 | a word token's text is an identifier run that the keyword table maps back to the token |
| Lexer.NumberRoundTrip | Compilador/src/lexer/mod.rs:47-53 | the decimal text of a non-negative number reads back as that number |
| Lexer.StringRoundTrip | Compilador/src/lexer/mod.rs:55-66 | a quoted text without quote or NUL reads back as its text, with the cursor past the closing quote |
| Lexer.UnterminatedString | Compilador/src/lexer/mod.rs:55-66 | an unterminated string is the text up to the end of input, without error |
| Lexer.ScanOutcome | Compilador/src/lexer/mod.rs:68-189 | errors exactly on a lone `!`, a character no token starts with (cursor left on it) or a digit run above `i64::MAX` (the panic); `Eof` exactly at NUL or the end, without moving; any other token moves forward |
| Lexer.KeywordIff | Compilador/src/lexer/mod.rs:166-182 | a word stays an identifier exactly when it is not one of the ten keywords; `int`, `bool`, `string`, `void` stay identifiers |
| Lexer.IdentTokenShape | Compilador/src/lexer/mod.rs:164-183 | an identifier token is a non-empty run of letters and `_`, with no digit |
| Parser.Advance | Compilador/src/parser/mod.rs:16-19 | reading a token never moves the cursor back, and moves it forward unless at `Eof` |
| Parser.Expect | Compilador/src/parser/mod.rs:373-383 | succeeds exactly when the current token is the expected one |
| Parser.TypeAt | Compilador/src/parser/mod.rs:240-259 | `parse_type` never moves the cursor back |
| Parser.TypeAtShape | Compilador/src/parser/mod.rs:240-259 | succeeds exactly on `int`, `bool`, `string`, `void`, and then without advancing, so `[T]` never parses |
| Parser.PrimaryAt | Compilador/src/parser/mod.rs:310-371 | a primary consumes at least one token, starts at a precedence-0 token and is never an infix |
| Parser.Literal | Compilador/src/parser/mod.rs:312-328 | exactly numbers, `true`, `false` and strings are literals |
| Parser.CallAt | Compilador/src/parser/mod.rs:329-348 | an identifier gives a name or, before `(`, a call |
| Parser.ArrayAt | Compilador/src/parser/mod.rs:349-361 | `[` gives an array literal and consumes tokens |
| Parser.GroupedAt | Compilador/src/parser/mod.rs:362-368 | `(` gives a grouped expression and consumes tokens |
| Parser.ListAt | Compilador/src/parser/mod.rs:336-341 | the argument/element loop never moves the cursor back |
| Parser.ListEnds | Compilador/src/parser/mod.rs:336-342 | on success the loop stops at the closing token and only appends |
| Parser.ExpressionAt | Compilador/src/parser/mod.rs:261-308 | an expression consumes tokens and starts at a precedence-0 token |
| Parser.InfixLoop | Compilador/src/parser/mod.rs:264-305 | the operator loop never moves the cursor back |
| Parser.InfixStep | Compilador/src/parser/mod.rs:266-277 | one operator step consumes tokens |
| Parser.PrecedenceIffOperator | Compilador/src/parser/mod.rs:385-408 | precedence is positive exactly for the ten operators `current_op` names: comparisons 1, `+ -` 2, `* /` 3 |
| Parser.ExpressionShape | Compilador/src/parser/mod.rs:261-308 | every parsed expression is a right-nested chain and stops at a token not binding tighter |
| Parser.LoopShape | Compilador/src/parser/mod.rs:264-305 | the same for the loop from a non-infix left operand |
| Parser.StatementAt | Compilador/src/parser/mod.rs:34-56 | a statement never moves the cursor back, and consumes tokens unless at `Eof` |
| Parser.StatementEnds | Compilador/src/parser/mod.rs:34-56 | a parsed statement stops on `;` or `}` |
| Parser.ExpressionStatementAt | Compilador/src/parser/mod.rs:43-54 | an expression statement stops on its `;` |
| Parser.LetAt | Compilador/src/parser/mod.rs:58-85 | a `let` consumes tokens and stops on its `;` |
| Parser.AnnotationAt | Compilador/src/parser/mod.rs:65-70 | the optional `: type` never moves the cursor back |
| Parser.LetValueAt | Compilador/src/parser/mod.rs:72-81 | `= expr` stops on the `;` |
| Parser.HeaderAt | Compilador/src/parser/mod.rs:89-93 | the `( condition )` of `if`/`while` consumes tokens |
| Parser.IfAt | Compilador/src/parser/mod.rs:87-109 | an `if` consumes tokens |
| Parser.ElseAt | Compilador/src/parser/mod.rs:97-102 | the optional else never moves the cursor back |
| Parser.IfHasNoElse | Compilador/src/parser/mod.rs:95-102 | a parsed `if` has no else block, since the block leaves the cursor on `}` |
| Parser.WhileAt | Compilador/src/parser/mod.rs:111-122 | a `while` consumes tokens and stops on `}` |
| Parser.ForAt | Compilador/src/parser/mod.rs:124-148 | a `for` consumes tokens |
| Parser.ForCondition | Compilador/src/parser/mod.rs:129-135 | the condition part never moves the cursor back |
| Parser.ForTail | Compilador/src/parser/mod.rs:136-147 | the increment and body never move the cursor back |
| Parser.ForNeverParses | Compilador/src/parser/mod.rs:124-148 | a `for` always fails: the increment statement leaves its `;` or `}` current where `expect_token(RParen)` wants `)` |
| Parser.ForConditionFails | Compilador/src/parser/mod.rs:129-135 | the condition part always fails |
| Parser.ForTailFails | Compilador/src/parser/mod.rs:136-147 | the increment part always fails |
| Parser.FunctionAt | Compilador/src/parser/mod.rs:150-199 | a function consumes tokens and stops on `}` |
| Parser.ParamsAt | Compilador/src/parser/mod.rs:159-175 | the parameter loop never moves the cursor back |
| Parser.ParamsShape | Compilador/src/parser/mod.rs:159-175 | any parameter makes the loop fail, since `parse_type` leaves the type name current; otherwise the list is unchanged |
| Parser.ReturnTypeAt | Compilador/src/parser/mod.rs:180-186 | the optional return type never moves the cursor back |
| Parser.ReturnTypeThenBlock | Compilador/src/parser/mod.rs:180-188 | a function whose body parses has no `:` annotation and returns void |
| Parser.FunctionShape | Compilador/src/parser/mod.rs:150-199 | a parsed function has no parameters and a void return type |
| Parser.ReturnAt | Compilador/src/parser/mod.rs:201-211 | `return` stops on its `;` |
| Parser.PrintAt | Compilador/src/parser/mod.rs:213-222 | `print` stops on its `;` |
| Parser.BlockAt | Compilador/src/parser/mod.rs:224-238 | a block consumes tokens and stops on `}` |
| Parser.BlockItems | Compilador/src/parser/mod.rs:229-234 | the block loop never moves the cursor back |
| Parser.BlockItemsEnd | Compilador/src/parser/mod.rs:229-234 | the block loop stops at `}` or `Eof` and only appends |
| Parser.ProgramItems | Compilador/src/parser/mod.rs:24-29 | the program loop never moves the cursor back |
| Parser.ProgramItemsEnd | Compilador/src/parser/mod.rs:24-29 | the program loop stops at `Eof` and only appends the statements it parses |
| Parser.InitialState | Compilador/src/parser/mod.rs:11-14 | the state `new` leaves is a valid parser state |
| Parser.InitialStateIsStale | Compilador/src/parser/mod.rs:11-14 | `new` leaves the lexer at its start, so the next read yields the first token again |
| Parser.StaleStatementFails | Compilador/src/parser/mod.rs:34-56 | from such a state a statement fails unless it opens with `(`, `[` or is `Eof` |
| Parser.StaleKeywordFails | Compilador/src/parser/mod.rs:58-222 | from such a state each keyword statement fails, meeting its keyword twice |
| Parser.StaleExpressionFails | Compilador/src/parser/mod.rs:43-54 | from such a state an expression statement stops on its own first token, not a `;` |
| Parser.ParseSource | Compilador/src/parser/mod.rs:11-14 | a source whose first token does not lex fails, with the panic of `new`'s `unwrap` as the error |
| Parser.ParseSourceFirstToken | Compilador/src/parser/mod.rs:11-32 | a whole source parses only if its first token is `(`, `[` or the end; blanks alone give the empty program; a lexical error in the first token gives the `unwrap` panic's message |
| Parser.Parser.constructor | Compilador/src/parser/mod.rs:11-14 | the stored lexer is the given one, unmoved, and the current token is its first token |
| Parser.Parser.NextToken | Compilador/src/parser/mod.rs:16-19 | the current token and cursor become `Advance` of the old state |
| Parser.Parser.ParseProgram | Compilador/src/parser/mod.rs:21-32 | the program and new state are `ProgramItems`, or its error |
| Parser.Parser.ParseStatement | Compilador/src/parser/mod.rs:34-56 | result and new state follow `StatementAt` |
| Parser.Parser.ParseExpressionStatement | Compilador/src/parser/mod.rs:43-54 | follows `ExpressionStatementAt` |
| Parser.Parser.ParseLet | Compilador/src/parser/mod.rs:58-85 | follows `LetAt` |
| Parser.Parser.ParseAnnotation | Compilador/src/parser/mod.rs:65-70 | follows `AnnotationAt` |
| Parser.Parser.ParseLetValue | Compilador/src/parser/mod.rs:72-81 | follows `LetValueAt` |
| Parser.Parser.ParseHeader | Compilador/src/parser/mod.rs:89-93 | follows `HeaderAt` |
| Parser.Parser.ParseIf | Compilador/src/parser/mod.rs:87-109 | follows `IfAt` |
| Parser.Parser.ParseElse | Compilador/src/parser/mod.rs:97-102 | follows `ElseAt` |
| Parser.Parser.ParseWhile | Compilador/src/parser/mod.rs:111-122 | follows `WhileAt` |
| Parser.Parser.ParseFor | Compilador/src/parser/mod.rs:124-148 | follows `ForAt` |
| Parser.Parser.ParseForCondition | Compilador/src/parser/mod.rs:129-135 | follows `ForCondition` |
| Parser.Parser.ParseForTail | Compilador/src/parser/mod.rs:136-147 | follows `ForTail` |
| Parser.Parser.ParseFunction | Compilador/src/parser/mod.rs:150-199 | follows `FunctionAt` |
| Parser.Parser.ParseParams | Compilador/src/parser/mod.rs:159-175 | follows `ParamsAt` |
| Parser.Parser.ParseReturnType | Compilador/src/parser/mod.rs:180-186 | follows `ReturnTypeAt` |
| Parser.Parser.ParseReturn | Compilador/src/parser/mod.rs:201-211 | follows `ReturnAt` |
| Parser.Parser.ParsePrint | Compilador/src/parser/mod.rs:213-222 | follows `PrintAt` |
| Parser.Parser.ParseBlock | Compilador/src/parser/mod.rs:224-238 | follows `BlockAt` |
| Parser.Parser.ParseType | Compilador/src/parser/mod.rs:240-259 | follows `TypeAt` |
| Parser.Parser.ParseExpression | Compilador/src/parser/mod.rs:261-308 | follows `ExpressionAt` |
| Parser.Parser.ParseInfixStep | Compilador/src/parser/mod.rs:266-277 | follows `InfixStep` |
| Parser.Parser.ParsePrimary | Compilador/src/parser/mod.rs:310-371 | follows `PrimaryAt` |
| Parser.Parser.ParseCall | Compilador/src/parser/mod.rs:329-348 | follows `CallAt` |
| Parser.Parser.ParseArray | Compilador/src/parser/mod.rs:349-361 | follows `ArrayAt` |
| Parser.Parser.ParseGrouped | Compilador/src/parser/mod.rs:362-368 | follows `GroupedAt` |
| Parser.Parser.ParseList | Compilador/src/parser/mod.rs:336-342 | follows `ListAt` |
| Semantic.SemanticAnalyzer.constructor | Compilador/src/semantic/mod.rs:22-36 | the table holds exactly the builtins `print: [int] → void`, `print_string: [string] → void`, `len: [string] → int`; no current function |
| Semantic.SemanticAnalyzer.AddBuiltinFunction | Compilador/src/semantic/mod.rs:38-48 | enters one function symbol and changes nothing else |
| Semantic.SemanticAnalyzer.Analyze | Compilador/src/semantic/mod.rs:50-73 | the outcome and new state are `CheckProgram`: signatures first, then the statements in order up to the first error |
| Semantic.SemanticAnalyzer.AnalyzeBlock | Compilador/src/semantic/mod.rs:68-70 | the statements in order, as `CheckBlock` says |
| Semantic.SemanticAnalyzer.AnalyzeStatement | Compilador/src/semantic/mod.rs:75-191 | outcome and new state are `CheckStmt` |
| Semantic.SemanticAnalyzer.AnalyzeFunction | Compilador/src/semantic/mod.rs:144-167 | the same for a function statement |
| Semantic.SemanticAnalyzer.AnalyzeExpression | Compilador/src/semantic/mod.rs:193-285 | the type or error of `ExprType` |
| Semantic.IdentTyping | Compilador/src/semantic/mod.rs:198-207 | a name types as a variable exactly when declared and not a function; the two errors otherwise |
| Semantic.ElementsFromIff | Compilador/src/semantic/mod.rs:212-219 | the element check succeeds exactly when every remaining element has the first one's type |
| Semantic.ArrayLiteralTyping | Compilador/src/semantic/mod.rs:208-221 | an array literal has type `[t]` exactly when all elements have type t; an empty one is `[int]` |
| Semantic.IndexTyping | Compilador/src/semantic/mod.rs:222-234 | indexing gives t exactly for an array of t and an int index |
| Semantic.InfixTyping | Compilador/src/semantic/mod.rs:235-258 | int op int is int; string `+` anything is string; a comparison of comparable types is bool; nothing else types |
| Semantic.ArgsFromIff | Compilador/src/semantic/mod.rs:268-277 | the argument check succeeds exactly when every argument has its parameter's type |
| Semantic.CallTyping | Compilador/src/semantic/mod.rs:259-282 | a call types as the callee's return type exactly when the callee is a declared function with matching arity and argument types |
| Semantic.CallErrors | Compilador/src/semantic/mod.rs:259-282 | the messages for an undeclared callee, a non-function and a wrong arity |
| Semantic.BuiltinCalls | Compilador/src/semantic/mod.rs:31-33 | each builtin call checks exactly with an argument of its parameter type |
| Semantic.LetRule | Compilador/src/semantic/mod.rs:77-95 | a `let` checks exactly when the value types and any annotation equals it; the name then gets that type |
| Semantic.AssignRule | Compilador/src/semantic/mod.rs:96-105 | an assignment checks exactly for a declared target of the value's type; the table is unchanged; an undeclared target has its message |
| Semantic.IfConditionRule | Compilador/src/semantic/mod.rs:106-110 | an `if` checks only with a bool condition; a condition of another type gives the source's message |
| Semantic.WhileConditionRule | Compilador/src/semantic/mod.rs:122-126 | the same for a `while` |
| Semantic.ForConditionRule | Compilador/src/semantic/mod.rs:132-137 | a `for` checks only if its init checks and its condition is bool in the table the init leaves |
| Semantic.ReturnRule | Compilador/src/semantic/mod.rs:168-182 | `return;` only in a void function; `return e` must match the return type inside a function and only needs to type outside |
| Semantic.InsertParamsContents | Compilador/src/semantic/mod.rs:149-159 | entering the parameters adds exactly their names as variables and keeps every other name |
| Semantic.StmtKeepsNames | Compilador/src/semantic/mod.rs:75-191 | the table is flat: a checked statement never removes a name |
| Semantic.BlockKeepsNames | Compilador/src/semantic/mod.rs:75-191 | nor does a checked block |
| Semantic.FunctionLeavesScope | Compilador/src/semantic/mod.rs:144-167 | after a function the current function is cleared, and its parameters stay in the table |
| Semantic.DeclareFunctionsContents | Compilador/src/semantic/mod.rs:52-65 | the first pass enters exactly the top-level function names as functions and keeps every other entry |

## Left out

- `main.rs`, `runtime/` and `codegen/mod.rs`: argument parsing, file I/O, process exit, the fixed C runtime text
  and the dispatch on the host operating system. They are not part of this model.
- `lexer/token.rs` is not part of this model. `Token` is defined from its uses in `lexer/mod.rs` and
  `parser/mod.rs`, with its derived `Debug` text.
- Character classes are ASCII: `is_whitespace`, `is_alphabetic` and `is_digit` of Unicode are not modelled.
- Lexer.Lexer.ReadNumber: the `unwrap` of a digit run too large for `i64` panics. The model gives an error
  token with the panic's message instead, which the parser passes on like a lexical error rather than aborting.
- Lexer.Lexer.ReadChar: requires a character to be left; `skip_whitespace` and the other loops never call it at the end.
- Optimizer.ConstantPropagation: folding whose `i64` sum or difference would overflow is excluded by
  the precondition `AllFoldFit` instead of modelling the overflow.
- Optimizer.CommonSubexpressionElimination: the `Debug`-formatted key string is modelled as the ordered
  operand pair it is built from.
- Optimizer: the `constants` and `replacements` tables of the passes and the two `Optimizer` fields are filled
  or declared but never read, so they are not modelled.
- IrBuilder.IRBuilder.BuildExpression: an unsupported infix operator panics. Statements that reach one are
  excluded by the precondition `ExprLowerable`, which only constrains code that is actually lowered.
- IrBuilder.IRBuilder: `current_function` is written and never read. The string table is kept but never
  leaves the builder, as in the source.
- `&mut IRFunction` parameters of the builder and of the optimizer passes are modelled as a function value
  passed in and returned; there is no aliasing to model.
- Types: `TypeSystem` has no state, so it is modelled as pure functions.
- CodegenUnix.LocalOffset: the `usize` subtraction is modelled with release-build wrap-around modulo 2^64,
  not the debug-build panic. The `sub rsp, 8·k` of the prologue is unbounded.
- Parser.TokenDebug and Semantic.TypeDebug: the `{:?}` text is given without Rust's string escaping.
- Parser: the `(` and `[` arms of the `parse_expression` loop are unreachable, since those tokens have
  precedence 0. As in the source, they are not entered.
- Parser.Parser.constructor: requires the first token to lex. For a source such as `@` or `!x`, `new` unwraps
  the error and panics; a Dafny constructor cannot fail, so the panic is stated by `ParseSource` as an error.
- Parser.Parser.ParseFor: the `unwrap` of a missing init or increment statement would panic. The model
  gives an error with the panic's message instead.
- Parser and SemanticAnalyzer: the state an error leaves behind is not specified. Only the error message is.
- Code that does not compile as written is modelled after its evident intent:
  - `IRFunction` is not imported in `optimizer/mod.rs`;
  - `local_var` is used after a move in `ir/builder.rs`;
  - `c` is unbound in the error arm of `lexer/mod.rs`;
  - the `Assign` arm of `semantic/mod.rs` borrows the table while analyzing the value;
  - the `Call` arm of `semantic/mod.rs` (lines 260-271) holds `symbol`, a borrow of the table, while analyzing each argument;
  - `Parser::new` (`parser/mod.rs` line 12) calls `lexer.clone()`, but `Lexer` (`lexer/mod.rs` line 4) derives no `Clone`;
  - `build_statement` (`ir/builder.rs` lines 58-59) holds `main_func` from `self.functions.iter_mut()` while
    calling `self.build_function_statement`, which borrows the builder mutably.
  - the `Number` arm of `parse_primary` (`parser/mod.rs` lines 312-314) holds `n`, a borrow of the current
    token, while calling `self.next_token()`; the model returns the number it read;
  - the `Add` and `Sub` arms of `constant_propagation` (`optimizer/mod.rs` lines 39-40 and 47-48) add and
    subtract `&mut i64` operands, for which Rust has no `+` or `-`; the model folds to the sum or difference
    of the two constants.
