# poulplang code generation, modelled in Dafny

poulplang parses a small C-like language and lowers it to LLVM IR. This
project models the core of that lowering. It covers:

- the `codeGen` method of every AST node in `codegen.cpp`;
- `typeOf` and `CodeGenContext::generateCode`;
- the node model of `ast.h` and its two static name counters;
- the two string helpers of `ast.cpp`.

The LLVM IR is abstract. A value is an opaque handle: a constant, an
instruction result, a function, a parameter or a global. A basic block is a
name, an owning function and a sequence of instructions.

`CodeGenContext` is a class, and the lowering methods update it in place:

- the module's functions, globals and blocks;
- the stack of frames, each pairing the block that is current with a locals
  map;
- `functionArguments`;
- `mainFunction` and `printfFunction`.

Each `codeGen` is a module-level method that takes the context as a
parameter and updates it. Its contract ties the new state to a heap-free
description of what the node emits:

- `ExprCodeGen.ExprRan` is defined by recursion on the expression. It says
  exactly which instructions an expression appends from a given position
  of its block, which globals it adds, and which value it yields:
  - a constant, a parameter or an unresolved name appends nothing;
  - a local read is one load of its slot;
  - a known operation is its operands' code, in either order, then its
    instruction on their values;
  - a call is its arguments' code in list order, then the call;
  - a print call interns its format as a new global, then runs its
    arguments, then calls printf;
  - an assignment is the right-hand side's code, then the store of its
    value into the target's slot.
- `StmtCodeGen.StmtRan` relates two `Snapshot` values of the context, one
  before a statement and one after it. It is the conjunction of two
  predicates:
  - `StmtFramed` is what every statement keeps. The current block grows
    only at its end, and every other existing block stays as it was.
    Functions and globals are only appended. The counters never go back.
    The printf declaration stays.
  - `StmtCode` says, per kind, what the statement emitted. It uses
    `ExprRan` for every expression inside the statement.
- `StmtCodeGen.BlockRan` chains `StmtRan` over a block's statements in
  order.

The ast.h constructors are the datatype constructors. The overloads whose
defaults matter are functions: `MethodCallByName`, `BranchWithElse`,
`BranchWithoutElse`, `DeclarationWithoutInitializer` and
`DeclarationWithInitializer`. Their rows below name the lemmas and the
contract clauses that say what lowering does with each.

An expression that emits code yields the handle of the last instruction it
appends. This is the load, the operation, the call or the store. An
expression that emits nothing yields its known value: a constant, a
parameter, or null. `ExprCodeGen.ExprRanYields` derives this summary,
`Yields`, from `ExprRan`.

Only `Assignment::codeGen` calls `exit(-1)`, and only for a target that is
not a local. `ExprCodeGen.HasAssignment` says whether an assignment occurs
in an expression; an expression without one always completes normally.

Modules:

- `Wrappers`: `Option`.
- `Ast`: the node datatypes and their constructors, plus the decimal names
  `.str<n>` and `branch<n>`. The class `InstanceCounters` holds the two
  static `instanceCount` members.
- `AstText`: `GetOperationName` and `GetIdentation`.
- `Ir`: the abstract IR; `FindFunction` is `Module::getFunction`.
- `FormatString`: the rewriting of a print format, exactly as the loop does
  it.
- `NameBudget`: how many print names and branch labels a subtree takes.
  Only this many names fit the `getUniqueName` buffers.
- `Context`: the `CodeGenContext` class and its frame primitives.
- `ExprCodeGen`: lowering of expressions.
- `StmtCodeGen`: lowering of statements.
- `Generate`: `generateCode`.

How a lowering ends is a `Completion`. `Normal(v)` carries the returned
value; a `NULL` is `Null`. `Exited` stands for `exit(-1)`; after it every
caller stops at once.

The frame primitives live in `codegen.h`, which is not part of this model.
The model gives them the semantics their uses imply:

- `pushBlock` makes a new top frame whose block is current and whose locals
  map is empty.
- `popBlock` restores the previous frame.
- `locals()` and `currentBlock()` consult the top frame only, so name lookup
  is flat. A branch arm, for example, does not see the locals of the
  enclosing block.

## Model

| member | source | states |
|---|---|---|
| Ast.DecimalInjective | ast.h:118 | `%d` renders different counter values as different digit strings |
| Ast.Decimal | ast.h:118 | the `%d` rendering of a non-negative counter is a non-empty string of decimal digits |
| Ast.DecimalRoundTrip | ast.h:118 | reading the rendered digits back gives the counter value |
| Ast.DecimalLength | ast.h:118 | a value has at most k digits exactly when it is below 10^k |
| Ast.PrintNameFits | ast.h:117-118 | `.str<n>` and its terminator fit the 8-byte buffer exactly when n < 1000 |
| Ast.BranchNameFits | ast.h:157-158 | `branch<n>` and its terminator fit the 16-byte buffer exactly when n < 10^9 |
| Ast.PrintNamesDistinct | ast.h:116-121 | different counter values give different `.str` names |
| Ast.BranchNamesDistinct | ast.h:156-161 | different counter values give different `branch` names |
| NameBudget.DeclarationBudget | ast.h:207-211 | a declaration from the two-argument constructor takes no print names; one from the three-argument constructor takes its initializer's |
| Ast.InstanceCounters.constructor | codegen.cpp:12-13 | both static counters start at 0 |
| Ast.InstanceCounters.PrintfUniqueName | ast.h:116-121 | returns `.str` and the counter's decimal value, which fits the buffer; raises the print counter by exactly one and leaves the branch counter alone |
| Ast.InstanceCounters.BranchUniqueName | ast.h:156-161 | returns `branch` and the counter's decimal value, which fits the buffer; raises the branch counter by exactly one and leaves the print counter alone |
| AstText.GetOperationName | ast.cpp:6-9 | defined only for 0..4, and the name it returns spells the enumerator declared at that position |
| AstText.OperationNameSpellsEnumerator | ast.cpp:7-8 | for every enumerator, the table entry at its position is its own spelling |
| AstText.GetIdentation | ast.cpp:11-17 | the result is `chars` repeated `level` times: empty for `level <= 0`, whose length is `level` times the length of `chars` otherwise |
| AstText.IndentationStep | ast.cpp:13-15 | one more level appends exactly one copy of `chars` |
| AstText.RepeatLength | ast.cpp:13-15 | `n` copies of `chars` are `n` times as long as `chars` |
| FormatString.Replace | codegen.cpp:198 | `std::string::replace(pos, count, str)` keeps the prefix, inserts `str` and drops `min(count, size - pos)` characters |
| FormatString.ProcessFormat | codegen.cpp:192-201 | the loop's result equals the specification function `Processed` (quotes stripped, each backslash-n rewritten by `replace(i, i+1, "\13\15")`). The result is never empty. It is at most one character longer than the body, and only when the body starts with a backslash-n |
| FormatString.ScanLength | codegen.cpp:195-201 | only a rewrite at index 0 lengthens the text, which bounds the loop |
| FormatString.PlainTextUnchanged | codegen.cpp:196-200 | text without a backslash-n comes out unchanged |
| FormatString.TrailingEscape | codegen.cpp:197-198 | a backslash-n at the end of the text becomes vertical tab and carriage return |
| FormatString.NormalizeNewlines | codegen.cpp:194 | the newline translation the comment `/* replace \n */` names (backslash-n to newline) never lengthens the text |
| FormatString.AgreeOnPlainText | codegen.cpp:192-201 | on text without a backslash-n, the code and the newline translation agree |
| FormatString.HelloNewline | codegen.cpp:192-207 | `"Hello\n"` is interned as `Hello`, VT, CR in an 8-byte global. The newline translation gives `Hello`, newline in 7 bytes |
| FormatString.LeadingEscapeKeepsN | codegen.cpp:198 | at index 0 only the backslash is replaced and the `n` stays |
| FormatString.LaterEscapeSwallows | codegen.cpp:198 | at index 2 the replacement also swallows the character after `n` |
| Ir.FindFunction | codegen.cpp:174 | the first function of the module with that name, or none when no function has it |
| Ir.CStringInit | codegen.cpp:205 | the initializer always ends in its only NUL; for a text without NUL it is the text followed by that NUL |
| Ir.CountCondBrStraight | codegen.cpp:405 | straight-line code appended behind a prefix adds no conditional branch |
| Context.TypeOf | codegen.cpp:114-123 | "int" gives the 32-bit integer type, "double" gives double, every other name gives void, in both directions |
| Context.CodeGenContext.constructor | codegen.cpp:141-144 | a new context has no functions, blocks, globals or frames, and an empty parameter table, so the parameter-first lookup finds nothing |
| Context.CodeGenContext.PushBlock | codegen.cpp:364 | pushes a frame on the block with an empty locals map |
| Context.CodeGenContext.PopBlock | codegen.cpp:380 | drops exactly the top frame |
| Context.CodeGenContext.Bind | codegen.cpp:314 | binds the name in the top frame only, replacing an earlier binding |
| Context.CodeGenContext.AppendTo | codegen.cpp:313 | appends at the end of the given block and returns that instruction's handle |
| Context.CodeGenContext.NewBlock | codegen.cpp:362 | a new empty block with that name at the end of the function |
| Context.CodeGenContext.AddFunction | codegen.cpp:361 | appends the function to the module |
| Context.CodeGenContext.AddGlobal | codegen.cpp:206-208 | appends the global, recording the counter value its name came from |
| Context.GlobalNamesDistinct | codegen.cpp:206-208 | no two globals of a context share a name, even when their texts are equal |
| ExprCodeGen.OperationForShape | codegen.cpp:241-265 | each of the ten tokens gives its own instruction: + - * / give Add, Sub, Mul, SDiv; == != < > <= >= give the compares Eq, Ne, Slt, Sgt, Sle, Sge; each holds in both directions, so no two tokens share an instruction; the operands are kept |
| ExprCodeGen.OperationFor | codegen.cpp:244-265 | a known token gives an arithmetic instruction or an integer compare, never a terminator |
| ExprCodeGen.Callee | codegen.cpp:174-177 | a function handle or null; a handle names the first function of the module with that name; null exactly when the module has none |
| ExprCodeGen.LowerIdentifier | codegen.cpp:139-153 | a parameter yields its value; a name unbound in the top frame yields null and emits nothing; otherwise exactly one load of the bound slot, which it yields. Either way the change is a run of the identifier (`ExprRan`) |
| ExprCodeGen.LowerExpr | codegen.cpp:127-137 | a constant, a parameter or an unresolved name yields its known value and changes nothing. On normal completion, the code appended to the current block and the globals added are exactly a run of the expression (`ExprRan`) yielding the returned value. Only the current block grows, by straight-line code. Each print site takes one print name. Without an assignment inside, it always completes normally |
| ExprCodeGen.LowerBinaryOperation | codegen.cpp:237-269 | an unknown token yields null and changes nothing. For a known token, the code is the two operands' runs, one right after the other in either order, then that token's instruction on the values they yield (`ExprRan`); it yields that instruction. Without an assignment inside, it completes normally |
| ExprCodeGen.LowerOperands | codegen.cpp:244-265 | the code and globals added are the run of the first operand followed directly by the run of the second, in the order given, and the values returned are what those runs yield (`OperandsRan`). Without an assignment inside, both are lowered |
| ExprCodeGen.LowerSecondOperand | codegen.cpp:244-265 | once the first operand has run, the second operand's run follows it directly, so together they are `OperandsRan` in that order |
| ExprCodeGen.LowerAssignment | codegen.cpp:271-280 | a target missing from the top frame exits with nothing changed. A local target with an assignment-free right-hand side completes normally. The code is then the right-hand side's run, then one store of the value it yields into the target's slot (`ExprRan`); it yields the store |
| ExprCodeGen.LowerMethodCall | codegen.cpp:174-185 | the code is the arguments' runs in list order, then one call of the resolved callee (null when there is none) on the values they yield (`ExprRan`). A call built by the name-only constructor (ast.h:103-104) becomes a call with no operands. Without an assignment among the arguments, it completes normally |
| ExprCodeGen.LowerArguments | codegen.cpp:180-182 | the code and globals added are the arguments' runs, one after the other in list order, and values[j] is what argument j's run yields (`ArgsRan`). Without an assignment among the arguments, all of them are lowered |
| ExprCodeGen.LowerArgument | codegen.cpp:180-182 | one turn of the argument loop: the run of argument i follows the runs of the arguments before it, and its value is appended to the values |
| ExprCodeGen.InternFormat | codegen.cpp:191-208 | takes the next `.str` name and appends one global of processed length + 1 bytes holding the NUL-terminated text |
| ExprCodeGen.LowerPrintfCall | codegen.cpp:189-235 | one new global holding the interned format, then the arguments' runs, then one printf call whose operands are the format pointer and then the value each argument yields, in list order (`ExprRan`). Without an assignment among the arguments, it completes normally |
| ExprCodeGen.CallPrintf | codegen.cpp:217-234 | once the format is interned: the arguments' runs, then the printf call on the format pointer and their values, so the whole print call is a run (`ExprRan`) |
| ExprCodeGen.ExprRanYields | codegen.cpp:127-280 | a run of an expression yields its known value with no code, or else the handle of the last instruction of a non-empty stretch |
| ExprCodeGen.ArgsRanExtend | codegen.cpp:180-182 | a run of the first i arguments followed directly by a run of argument i is a run of the first i + 1 |
| ExprCodeGen.MethodCallRan | codegen.cpp:180-184 | the arguments' runs, then the call of the named function on their values, is a run of the call that yields the call |
| ExprCodeGen.PrintfCallRan | codegen.cpp:217-228 | the interned format, the arguments' runs after it, then the printf call on the format's first byte and their values, is a run of the print call |
| ExprCodeGen.AssignmentRan | codegen.cpp:277-279 | the right-hand side's run, then the store of its value into the target's slot, is a run of the assignment that yields the store |
| ExprCodeGen.AssignmentStores | codegen.cpp:271-280 | conversely, a run of an assignment has a local target and ends with a store into the target's slot, which it yields |
| ExprCodeGen.OperandsRanLeftFirst | codegen.cpp:244-265 | the left operand's run followed directly by the right one's is a left-first run of the operands |
| ExprCodeGen.OperandsRanRightFirst | codegen.cpp:244-265 | the right operand's run followed directly by the left one's is a right-first run of the operands |
| ExprCodeGen.OperationRan | codegen.cpp:244-268 | the operands' runs, then the token's instruction on their values, is a run of the operation that yields that instruction |
| StmtCodeGen.LowerBlock | codegen.cpp:282-292 | lowers the statements in order, each from the state the previous one left: its ghost trace records that statement j ran (`StmtRan`) from trace[j] to trace[j+1] with value values[j]. On normal completion every statement ran and the block's value is the last statement's value, or null for an empty block; an exit stops the loop with fewer values. The scope is the same afterwards |
| StmtCodeGen.LowerNext | codegen.cpp:286-289 | one turn of the loop: statement i runs from the state the trace ends in, and on normal completion the trace and values grow by the new state and its value |
| StmtCodeGen.BlockTraceExtend | codegen.cpp:286-289 | a statement that ran from the last state of a trace extends the trace by one step |
| StmtCodeGen.BlockRanByTrace | codegen.cpp:282-292 | a trace through every statement of a block is a run of the block from its first to its last state |
| StmtCodeGen.BlockRanSnoc | codegen.cpp:282-292 | a block ending in s ran from st0 to st2 if and only if the statements before s ran from st0 to some st1 and s then ran from st1 to st2 |
| StmtCodeGen.BlockRanLast | codegen.cpp:282-292 | the "only if" direction of BlockRanSnoc: a run of the longer block splits at its last statement |
| StmtCodeGen.BlockRanExtend | codegen.cpp:282-292 | the "if" direction of BlockRanSnoc: a run of a block followed by a run of one more statement is a run of the longer block |
| StmtCodeGen.LowerStmt | codegen.cpp:294-298 | dispatches on the kind. On normal completion it ensures `StmtRan`. Its `StmtFramed` part: the current block grows only at its end, other existing blocks are unchanged, functions and globals are only appended, and the counters never go back. Its `StmtCode` part depends on the kind. An expression statement adds exactly its expression's run (`ExprRan`) and leaves the frames unchanged. A declaration is `DeclarationRan` and a return is `ReturnRan`. A function declaration yields the new function and ran as `FunctionRan`. A branch yields null and ran as `BranchRan`. Only a declaration changes the frames |
| StmtCodeGen.LowerExpressionStatement | codegen.cpp:294-298 | the code and globals the statement adds are exactly a run of its expression (`ExprRan`), whose value it returns; the frames and the other blocks are unchanged |
| StmtCodeGen.LowerVariableDeclaration | codegen.cpp:312-320 | appends one alloca of the declared type at the old end of the current block. It binds the name to that alloca in the top frame, replacing an earlier binding (`DeclarationRan`). From the two-argument constructor that is all, and the globals are unchanged. With an initializer, the code after the alloca is exactly the run of the assignment of the initializer to the name, in the scope with the new binding (`ExprRan`). Yields the slot |
| StmtCodeGen.LowerInitializer | codegen.cpp:316-319 | after the alloca and the binding, the code added is the run of `Assignment(name, initializer)` in the scope with the new binding. So the whole declaration ran as `DeclarationRan`, it yields the slot, and its last instruction stores into that slot |
| StmtCodeGen.InitializerStoresIntoSlot | codegen.cpp:316-319 | an initialized declaration ends, after its alloca, with a store whose target is the declaration's own slot |
| StmtCodeGen.DeclareThenAssign | codegen.cpp:282-320 | lowering the block `int x; x = 5;` appends exactly two instructions to the current block: the alloca of x, then the store of 5 into that alloca |
| StmtCodeGen.DeclaredX | codegen.cpp:312-314 | `int x;` appends the alloca of x and binds x to it in the top frame |
| StmtCodeGen.AssignedFive | codegen.cpp:271-280 | `x = 5;` with x bound appends exactly one store of 5 into x's slot |
| StmtCodeGen.CallStatementCalls | codegen.cpp:174-185 | the statement `f(1);` appends exactly one instruction: the call of the first function named f (null when there is none) on the constant 1 |
| StmtCodeGen.LowerReturn | codegen.cpp:386-390 | the value's run (`ExprRan`), then one `ret` at the end of the current block of the value that run yields, or `ret void` when that value is null (`ReturnRan`) |
| StmtCodeGen.RetOf | codegen.cpp:389 | `ReturnInst::Create` with a null value is `ret void`; any other value is returned as it is |
| StmtCodeGen.EnterFunction | codegen.cpp:355-375 | adds the function with `typeOf` of each parameter type, not variadic, and a new "entry" block in it as the top frame, leaving existing blocks unchanged (`FunctionEntered`). Every parameter name is bound there to the alloca into which the argument of the last parameter with that name was stored; without initializers that is instruction 2j for parameter j |
| StmtCodeGen.ParamTypesFollowDeclarations | codegen.cpp:355-359 | one type per parameter, in order: i32 exactly for "int", double exactly for "double", void otherwise |
| StmtCodeGen.LowerParameters | codegen.cpp:369-375 | every parameter name bound in the entry frame to the alloca that received argument j, j the last parameter with that name (`ParameterBound`); without initializers the entry block holds exactly the prologue |
| StmtCodeGen.LastNamed | codegen.cpp:369-375 | the last of the first i parameters with a given name, or -1 when none has it: that parameter has the name and no later one does |
| StmtCodeGen.ParametersLoweredStep | codegen.cpp:369-375 | one more turn of the parameter loop keeps every earlier binding and rebinds a repeated name to the new slot |
| StmtCodeGen.DistinctParametersBound | codegen.cpp:369-375 | with distinct names and no initializers, parameter k reads instruction 2k of the entry block, the alloca that argument k was stored into |
| StmtCodeGen.LowerParameter | codegen.cpp:370-374 | whether or not there is an initializer: the parameter's alloca follows the earlier code, the name is bound to it in the entry frame, and the last instruction of the entry block stores argument i into it |
| StmtCodeGen.PrologueLayout | codegen.cpp:369-375 | N parameters give 2N instructions: an alloca at 2i, then the store of argument i into it at 2i+1 |
| StmtCodeGen.PrologueStep | codegen.cpp:370-374 | one more parameter appends its alloca and then the store into that alloca |
| StmtCodeGen.LowerFunctionDeclaration | codegen.cpp:355-383 | adds the function and a new "entry" block in it, leaving existing blocks unchanged; binds the parameters there; then lowers the body with the entry frame on top and pops it (`FunctionRan`); the frames are as before; yields the function |
| StmtCodeGen.LowerFunctionBody | codegen.cpp:377-380 | from an entered function: lowers the body in the entry frame and pops it; the declaration left `StmtCode` with the new function as its value |
| StmtCodeGen.FunctionStmtCode | codegen.cpp:324-383 | an entered function whose body has a full trace, with the body's frame then popped, has left the code of a function declaration (`StmtCode`), valued with the new function |
| StmtCodeGen.LowerBranch | codegen.cpp:392-418 | the test's run (`ExprRan`), then one conditional branch at the end of the block current on entry. It branches on the value the test yields to the new "branch" block(s) of the same function. A false block exists only with an else arm. The true arm is lowered into the first new block and the false arm into the second (`BranchRan`). The frames are as before; yields null |
| StmtCodeGen.LowerArms | codegen.cpp:407-415 | from an opened branch: the true arm is lowered into its block, then the false arm if any. Only the arm blocks change, and the branch left `StmtCode` valued null |
| StmtCodeGen.LowerElse | codegen.cpp:411-415 | with an else arm, lowers it into the second new block; without one it changes nothing. Either way the branch left `StmtCode` valued null |
| StmtCodeGen.BranchStmtCode | codegen.cpp:392-418 | an opened branch whose true arm ran into the first new block, and whose false arm, if any, ran into the second, has left the code of a branch (`StmtCode`) valued null |
| StmtCodeGen.ArmsKeepShape | codegen.cpp:407-415 | lowering the arms, which only appends to the arm blocks, keeps the conditional branch and the new blocks' names in place |
| StmtCodeGen.BeginBranch | codegen.cpp:395-405 | the test's run (`ExprRan`), then one or two new empty blocks, then the conditional branch on the test's value at the end of the entry block (`BranchOpened`) |
| StmtCodeGen.OpenBranch | codegen.cpp:397-405 | after the test's code: the new empty block(s), named from the counter, and exactly one instruction appended to the current block, the conditional branch on the value the test yielded |
| StmtCodeGen.NewBranchBlocks | codegen.cpp:399-403 | one block per label taken, named from the branch counter, in the given function |
| StmtCodeGen.LowerArm | codegen.cpp:407-414 | the arm's statements are lowered in order in a new frame on its own block, and the frame is popped after (`ArmRan`) |
| StmtCodeGen.BranchShapeKept | codegen.cpp:407-414 | lowering an arm leaves the conditional branch of the entry block in place |
| StmtCodeGen.BranchAddsOneCondBr | codegen.cpp:405 | a branch adds exactly one conditional branch to the block it started in |
| StmtCodeGen.BranchWithoutElseShape | ast.h:153-154 | a branch from the two-argument constructor has no false target and takes one label besides those of its arm |
| StmtCodeGen.BranchWithElseShape | ast.h:150-151 | a branch from the three-argument constructor targets two new blocks, named from consecutive counter values, and takes two labels besides those of its arms |
| Generate.GenerateCode | codegen.cpp:56-94 | declares main, printf and putchar in that order. The program ran as a block (`BlockRan`) from main's freshly opened entry frame to the state `lowered`, during which main's entry block only grew at its end (`Grew`). Then `ret void` closes main's entry block, and the frame stack is empty again |
| Generate.OpenMain | codegen.cpp:61-74 | `void main()` with its entry block as the only frame, then printf and putchar |
| Generate.PrototypesWin | codegen.cpp:174 | calls to "main", "printf" and "putchar" resolve to the three declarations made first |

## Left out

- The command-line driver (`main.cpp`) is not part of this model: reading
  the source file, the external parser, and writing the output file.
- All log and console output (`Log::Debug`, `std::cout`, `std::cerr`).
  Messages such as "undeclared variable" and "no such function" have no
  effect in the model.
- `CodeGenContext::runCode`: running the module through LLVM's execution
  engine.
- Printing the module as text through a `PassManager`. `GenerateCode`
  returns a `Completion`; the IR it built is the context's state.
- LLVM's internal construction details are opaque constructors: types of
  constants, the calling convention, `ConstantDataArray` and
  `getGetElementPtr`.
- LLVM renaming a second function with an existing name. Because lookup
  takes the first match, the model still resolves that name to the first
  function.
- Double literals are carried as their 64 bits; floating point is not
  modelled.
- What the emitted IR computes when run.
- IR well-formedness. The code does not ensure it, and the model keeps the
  code's output as it is.
- The parser's token constants: the ten tokens the lowering knows are
  constructors, and every other value is `OtherToken`.
- The uninitialised `assignmentExpression` of the two-argument
  `VariableDeclaration` constructor is undefined behaviour. The model reads
  it as "no initializer".
- ExprCodeGen.LowerBinaryOperation: lowers its operands in either order,
  because C++ leaves the evaluation order of the two arguments open. The
  contract allows both orders and does not say which one is taken.
- ExprCodeGen.LowerPrintfCall: requires a format token of at least three
  characters. Shorter tokens make the loop's unsigned bound wrap and read
  out of range, which is undefined behaviour.
- FormatString.ProcessFormat: a NUL inside the text ends the C string that
  initialises the global. `CStringInit` models this, but the size of the
  global is still the length of the whole text.
- Ast.InstanceCounters.PrintfUniqueName: requires the counter to be below
  1000. A larger value overflows the 8-byte buffer (undefined behaviour).
- Ast.InstanceCounters.BranchUniqueName: requires the counter to be below
  10^9, for the same reason with the 16-byte buffer.
- The lowering methods require that the counters leave room for every name
  the subtree takes. `NameBudget` counts these names.
- Null operands, null callees and null branch targets are kept as `Null`
  handles. What LLVM does with them is not modelled.

## Code and design

In these places the code behaves differently from what its own comments
and names announce, and the model follows the code:

- **Backslash-n.** The loop is headed `/* replace \n */` (codegen.cpp:194),
  but a backslash-n is not turned into a newline. `replace(i, i + 1,
  "\13\15")` inserts vertical tab and carriage return, and removes
  `min(i + 1, size - i)` characters. At index 0 the `n` survives; at index
  2 or later the following characters are lost. `"Hello\n"` becomes
  `Hello` VT CR in an 8-byte global, not 7 bytes
  (`FormatString.HelloNewline`, `LeadingEscapeKeepsN`,
  `LaterEscapeSwallows`). Where the text has no backslash-n, the two agree
  (`FormatString.AgreeOnPlainText`).
- **Parameter table.** `functionArguments` is never written by the live
  function lowering. Parameters become an alloca and a store in the entry
  block, and the parameter-first lookup of identifiers sees an empty
  table.
- **Branches.** A branch makes no merge block. Statements after a branch
  are appended to the block that already ends with the conditional
  branch, and a branch without an else arm has a null false target.
- **Scopes.** Name lookup consults only the top frame, so code inside an
  arm or a function body does not see outer locals.
