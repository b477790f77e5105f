/**
 * CodeGenContext::generateCode: the whole program is lowered into the
 * entry block of a `main` function, after the printf and putchar
 * prototypes have been declared, and `main` is closed with `ret void`.
 */
module Generate {
  import opened Wrappers
  import opened Ast
  import opened Ir
  import opened Context
  import opened NameBudget
  import opened ExprCodeGen
  import opened StmtCodeGen

  /** `void main()`, the function the top-level statements are lowered into. */
  const MainPrototype := Function("main", VoidTy, [], false)
  /** `i32 printf(i8*, ...)`. */
  const PrintfPrototype := Function("printf", Int32Ty, [Int8PtrTy], true)
  /** `void putchar()`: declared with no parameter. */
  const PutcharPrototype := Function("putchar", VoidTy, [], false)

  /**
   * The state generateCode lowers the program from: `main`'s empty entry
   * block as the only frame, the three prototypes, no globals yet, and
   * printf the second function.
   */
  function MainOpened(prints: nat, labels: nat): Snapshot
  {
    Snapshot([BasicBlock("entry", 0, [])], [MainPrototype, PrintfPrototype, PutcharPrototype], [],
             [Frame(0, map[])], prints, labels, Fn(1))
  }

  method GenerateCode(ctx: CodeGenContext, root: StatementBlock) returns (r: Completion, ghost lowered: Snapshot)
    requires ctx.Valid()
    requires ctx.functions == [] && ctx.blocks == [] && ctx.globals == [] && ctx.frames == []
    requires PrintsFit(ctx.names.printfCount, BlockPrintFormats(root.statements))
    requires LabelsFit(ctx.names.branchCount, BlockBranchLabels(root.statements))
    modifies ctx`functions, ctx`blocks, ctx`frames, ctx`globals, ctx`globalIds
    modifies ctx`mainFunction, ctx`printfFunction, ctx.names
    ensures ctx.Valid()
    ensures 3 <= |ctx.functions| && ctx.functions[..3] == [MainPrototype, PrintfPrototype, PutcharPrototype]
    ensures ctx.mainFunction == Fn(0) && ctx.printfFunction == Fn(1)
    ensures 1 <= |ctx.blocks| && ctx.blocks[0].blockName == "entry" && ctx.blocks[0].parent == 0
    ensures r.Normal? ==>
              && ctx.frames == []
              && ctx.names.printfCount == old(ctx.names.printfCount) + |BlockPrintFormats(root.statements)|
              && ctx.names.branchCount == old(ctx.names.branchCount) + BlockBranchLabels(root.statements)
              && 1 <= |ctx.blocks[0].body| && ctx.blocks[0].body[|ctx.blocks[0].body| - 1] == Ret(None)
    ensures r.Normal? ==>
              && BlockRan(root, MainOpened(old(ctx.names.printfCount), old(ctx.names.branchCount)), lowered,
                          ctx.functionArguments)
              && Grew(MainOpened(old(ctx.names.printfCount), old(ctx.names.branchCount)).blocks, lowered.blocks, 0)
              && 1 <= |lowered.blocks| && ctx.blocks == Appended(lowered.blocks, 0, Ret(None)) && ctx.functions == lowered.functions
  {
    var entry := OpenMain(ctx);
    ghost var trace, values;
    lowered := Snap(ctx);
    r, trace, values := LowerBlock(ctx, root);
    lowered := Snap(ctx);
    assert ctx.functions[..3] == [MainPrototype, PrintfPrototype, PutcharPrototype];
    if r.Exited? {
      return;
    }
    BlockRanByTrace(root, trace, values, ctx.functionArguments);
    var _ := ctx.AppendTo(entry, Ret(None));
    ctx.PopBlock();
  }

  /** The first half of generateCode: `main` and its entry block as the only frame, then the prototypes. */
  method OpenMain(ctx: CodeGenContext) returns (entry: nat)
    requires ctx.Valid()
    requires ctx.functions == [] && ctx.blocks == [] && ctx.frames == []
    modifies ctx`functions, ctx`blocks, ctx`frames, ctx`mainFunction, ctx`printfFunction
    ensures ctx.Valid()
    ensures ctx.functions == [MainPrototype, PrintfPrototype, PutcharPrototype]
    ensures ctx.blocks == [BasicBlock("entry", 0, [])] && ctx.frames == [Frame(0, map[])] && entry == 0
    ensures ctx.mainFunction == Fn(0) && ctx.printfFunction == Fn(1)
  {
    var main := ctx.AddFunction(MainPrototype);
    ctx.mainFunction := Fn(main);
    entry := ctx.NewBlock("entry", main);
    ctx.PushBlock(entry);
    var printf := ctx.AddFunction(PrintfPrototype);
    ctx.printfFunction := Fn(printf);
    var _ := ctx.AddFunction(PutcharPrototype);
  }

  /**
   * Callees resolve by first match, so calls by the names "main", "printf"
   * and "putchar" reach the three declarations generateCode makes first,
   * whatever the program declares after them.
   */
  lemma PrototypesWin(fs: seq<Function>)
    requires 3 <= |fs| && fs[..3] == [MainPrototype, PrintfPrototype, PutcharPrototype]
    ensures Callee(fs, "main") == Fn(0)
    ensures Callee(fs, "printf") == Fn(1)
    ensures Callee(fs, "putchar") == Fn(2)
  {
    assert fs[0] == MainPrototype && fs[1] == PrintfPrototype && fs[2] == PutcharPrototype by {
      assert fs[..3][0] == fs[0] && fs[..3][1] == fs[1] && fs[..3][2] == fs[2];
    }
  }
}
