/**
 * Statement lowering: the codeGen implementations of StatementBlock,
 * ExpressionStatement, VariableDeclaration, FunctionDeclaration,
 * ReturnStatement and BranchStatement, and CodeGenContext::generateCode,
 * which lowers a whole program into `main`.
 */
module StmtCodeGen {
  import opened Wrappers
  import opened Ast
  import opened Ir
  import opened Context
  import opened NameBudget
  import opened ExprCodeGen

  /**
   * The effect every statement has on the context: block k0 may grow at its
   * end, other existing blocks stay as they are, new blocks, functions and
   * globals may follow, and the name counters never go back.
   */
  ghost predicate StmtStep(ctx: CodeGenContext, b0: seq<BasicBlock>, f0: seq<Function>, g0: seq<Global>,
                           k0: nat, prints0: nat, labels0: nat)
    reads ctx`blocks, ctx`functions, ctx`globals, ctx.names
  {
    && Grew(b0, ctx.blocks, k0)
    && f0 <= ctx.functions && g0 <= ctx.globals
    && prints0 <= ctx.names.printfCount && labels0 <= ctx.names.branchCount
  }

  lemma StmtStepTransitive(ctx: CodeGenContext, b0: seq<BasicBlock>, b1: seq<BasicBlock>, f0: seq<Function>, f1: seq<Function>,
                           g0: seq<Global>, g1: seq<Global>, k0: nat, p0: nat, p1: nat, l0: nat, l1: nat)
    requires Grew(b0, b1, k0) && f0 <= f1 && g0 <= g1 && p0 <= p1 && l0 <= l1
    requires StmtStep(ctx, b1, f1, g1, k0, p1, l1)
    ensures StmtStep(ctx, b0, f0, g0, k0, p0, l0)
  {
    GrewTransitive(b0, b1, ctx.blocks, k0);
  }

  /** The frames below the top are those of fr0, and the top frame is on the same block. */
  ghost predicate SameScope(ctx: CodeGenContext, fr0: seq<Frame>)
    reads ctx`frames
  {
    && 1 <= |fr0| == |ctx.frames|
    && ctx.frames[..|fr0| - 1] == fr0[..|fr0| - 1]
    && ctx.frames[|fr0| - 1].block == fr0[|fr0| - 1].block
  }

  /**
   * Blocks b1 and frames fr1 are b0 and fr0 after straight work in a
   * function's entry block: only that block grew, and only the top frame's
   * locals changed, the top frame staying on that block.
   */
  ghost predicate InEntry(b0: seq<BasicBlock>, b1: seq<BasicBlock>, fr0: seq<Frame>, fr1: seq<Frame>, entry: nat)
  {
    && Grew(b0, b1, entry) && |b1| == |b0|
    && 1 <= |fr0| == |fr1|
    && fr1[..|fr1| - 1] == fr0[..|fr0| - 1]
    && fr1[|fr1| - 1].block == entry
  }

  lemma InEntryTransitive(b0: seq<BasicBlock>, b1: seq<BasicBlock>, b2: seq<BasicBlock>,
                          fr0: seq<Frame>, fr1: seq<Frame>, fr2: seq<Frame>, entry: nat)
    requires InEntry(b0, b1, fr0, fr1, entry) && InEntry(b1, b2, fr1, fr2, entry)
    ensures InEntry(b0, b2, fr0, fr2, entry)
  {
    GrewTransitive(b0, b1, b2, entry);
  }

  /** Every block of b0 is still there, unchanged. */
  ghost predicate Untouched(b0: seq<BasicBlock>, b1: seq<BasicBlock>)
  {
    |b0| <= |b1| && forall j :: 0 <= j < |b0| ==> b1[j] == b0[j]
  }

  /** The parameter types FunctionDeclaration gives its function: typeOf of each declared type. */
  function ParamTypes(ps: seq<VarDecl>): seq<Type>
  {
    seq(|ps|, i requires 0 <= i < |ps| => TypeOf(ps[i].typeName))
  }

  /**
   * One type per parameter, in order: i32 exactly for an "int" parameter,
   * double exactly for a "double" one, and void for any other type name.
   */
  lemma ParamTypesFollowDeclarations(ps: seq<VarDecl>)
    ensures |ParamTypes(ps)| == |ps|
    ensures forall i :: 0 <= i < |ps| ==> (ParamTypes(ps)[i] == Int32Ty <==> ps[i].typeName == "int")
    ensures forall i :: 0 <= i < |ps| ==> (ParamTypes(ps)[i] == DoubleTy <==> ps[i].typeName == "double")
    ensures forall i :: 0 <= i < |ps| ==> ParamTypes(ps)[i] in {Int32Ty, DoubleTy, VoidTy}
  {
  }

  predicate NoInitializers(ps: seq<VarDecl>)
  {
    forall i :: 0 <= i < |ps| ==> ps[i].assignmentExpression.None?
  }

  /**
   * The code FunctionDeclaration puts at the top of the entry block of
   * function f when no parameter has an initializer: per parameter, its
   * stack slot, then the store of the incoming argument into that slot.
   */
  function Prologue(f: nat, entry: nat, ps: seq<VarDecl>): seq<Instr>
  {
    if ps == [] then []
    else
      var i := |ps| - 1;
      Prologue(f, entry, ps[..i]) + [Alloca(ps[i].name, TypeOf(ps[i].typeName)), Store(Arg(f, i), Inst(entry, 2 * i))]
  }

  /** Parameter i owns instructions 2i (its slot) and 2i + 1 (the store of argument i). */
  lemma {:induction false} PrologueLayout(f: nat, entry: nat, ps: seq<VarDecl>)
    ensures |Prologue(f, entry, ps)| == 2 * |ps|
    ensures forall i :: 0 <= i < |ps| ==>
              && Prologue(f, entry, ps)[2 * i] == Alloca(ps[i].name, TypeOf(ps[i].typeName))
              && Prologue(f, entry, ps)[2 * i + 1] == Store(Arg(f, i), Inst(entry, 2 * i))
  {
    if ps != [] {
      var n := |ps| - 1;
      PrologueLayout(f, entry, ps[..n]);
      forall i | 0 <= i < n
        ensures ps[..n][i] == ps[i]
      {
      }
    }
  }

  /** One more parameter adds its slot and then its store into that slot. */
  lemma PrologueStep(f: nat, entry: nat, ps: seq<VarDecl>, i: nat)
    requires i < |ps|
    ensures Prologue(f, entry, ps[..i + 1]) ==
              Prologue(f, entry, ps[..i])
              + [Alloca(ps[i].name, TypeOf(ps[i].typeName)), Store(Arg(f, i), Inst(entry, |Prologue(f, entry, ps[..i])|))]
  {
    PrologueLayout(f, entry, ps[..i]);
    assert ps[..i + 1][..i] == ps[..i];
  }

  /** The last of the first i parameters named `name`, or -1 when none of them is. */
  function LastNamed(ps: seq<VarDecl>, i: nat, name: string): (j: int)
    requires i <= |ps|
    ensures -1 <= j < i
    ensures 0 <= j ==> ps[j].name == name && forall k :: j < k < i ==> ps[k].name != name
    ensures j == -1 ==> forall k :: 0 <= k < i ==> ps[k].name != name
  {
    if i == 0 then -1
    else if ps[i - 1].name == name then i - 1
    else LastNamed(ps, i - 1, name)
  }

  /**
   * After i turns of the parameter loop, parameter k's name reads the slot
   * of the last of those parameters with that name, j: the alloca made for
   * parameter j, into which argument j of function f was stored. Without
   * initializers that slot is instruction 2j of the entry block.
   */
  ghost predicate ParameterBound(ps: seq<VarDecl>, i: nat, k: nat, f: nat, entry: nat,
                                 body: seq<Instr>, locals: map<string, Value>)
    requires k < i <= |ps|
  {
    var j := LastNamed(ps, i, ps[k].name);
    && ps[k].name in locals
    && var slot := locals[ps[k].name];
    && slot.Inst? && slot.block == entry && slot.index < |body|
    && body[slot.index] == Alloca(ps[j].name, TypeOf(ps[j].typeName))
    && Store(Arg(f, j), slot) in body
    && (NoInitializers(ps) ==> slot == Inst(entry, 2 * j))
  }

  /**
   * After i turns of the parameter loop: each of the first i names is bound
   * to the slot that received its argument, and without initializers the
   * entry block holds exactly their prologue.
   */
  ghost predicate ParametersLowered(ps: seq<VarDecl>, i: nat, f: nat, entry: nat,
                                    body: seq<Instr>, locals: map<string, Value>)
    requires i <= |ps|
  {
    && (forall k :: 0 <= k < i ==> ParameterBound(ps, i, k, f, entry, body, locals))
    && (NoInitializers(ps) ==> body == Prologue(f, entry, ps[..i]))
  }

  /**
   * With distinct parameter names and no initializers, parameter k's name
   * reads instruction 2k of the entry block, the alloca argument k was
   * stored into.
   */
  lemma DistinctParametersBound(ps: seq<VarDecl>, f: nat, entry: nat, body: seq<Instr>, locals: map<string, Value>)
    requires NoInitializers(ps)
    requires forall j, k :: 0 <= j < k < |ps| ==> ps[j].name != ps[k].name
    requires forall k :: 0 <= k < |ps| ==> ParameterBound(ps, |ps|, k, f, entry, body, locals)
    ensures forall k :: 0 <= k < |ps| ==>
              && ps[k].name in locals && locals[ps[k].name] == Inst(entry, 2 * k)
              && Store(Arg(f, k), Inst(entry, 2 * k)) in body
  {
    forall k | 0 <= k < |ps|
      ensures ps[k].name in locals && locals[ps[k].name] == Inst(entry, 2 * k) && Store(Arg(f, k), Inst(entry, 2 * k)) in body
    {
      assert ParameterBound(ps, |ps|, k, f, entry, body, locals);
      var j := LastNamed(ps, |ps|, ps[k].name);
      assert j == k;
    }
  }

  /** One more parameter lowered as ParameterLowered describes keeps every binding in place. */
  lemma ParametersLoweredStep(ps: seq<VarDecl>, i: nat, f: nat, entry: nat, body0: seq<Instr>, body: seq<Instr>,
                              locals0: map<string, Value>, locals: map<string, Value>)
    requires i < |ps|
    requires ParametersLowered(ps, i, f, entry, body0, locals0)
    requires ParameterLowered(ps[i], f, i, entry, body0, body, locals0, locals)
    requires NoInitializers(ps) ==> body == Prologue(f, entry, ps[..i + 1])
    ensures ParametersLowered(ps, i + 1, f, entry, body, locals)
  {
    if NoInitializers(ps) {
      PrologueLayout(f, entry, ps[..i]);
    }
    var n := i + 1;
    forall k | 0 <= k < n
      ensures ParameterBound(ps, n, k, f, entry, body, locals)
    {
      if ps[k].name == ps[i].name {
        assert body[|body| - 1] == Store(Arg(f, i), locals[ps[k].name]);
      } else {
        assert ParameterBound(ps, i, k, f, entry, body0, locals0);
        var slot := locals0[ps[k].name];
        assert body[slot.index] == body0[slot.index];
        var j := LastNamed(ps, i, ps[k].name);
        assert Store(Arg(f, j), slot) in body0;
      }
    }
  }

  /**
   * One parameter's code in the entry block, whatever its initializer: its
   * slot right after body0, the name bound to that slot, and last the store
   * of incoming argument i into it.
   */
  ghost predicate ParameterLowered(p: VarDecl, f: nat, i: nat, entry: nat, body0: seq<Instr>, body: seq<Instr>,
                                   locals0: map<string, Value>, locals: map<string, Value>)
  {
    && |body0| + 2 <= |body| && body0 <= body
    && body[|body0|] == Alloca(p.name, TypeOf(p.typeName))
    && locals == locals0[p.name := Inst(entry, |body0|)]
    && body[|body| - 1] == Store(Arg(f, i), Inst(entry, |body0|))
  }

  /** ReturnInst of a value: a null value makes `ret void`. */
  function RetOf(v: Value): (i: Instr)
    ensures i.Ret? && IsControl(i)
    ensures i.result.None? <==> v == Null
    ensures i.result.Some? ==> i.result.value == v
  {
    Ret(if v == Null then None else Some(v))
  }

  /**
   * The parts of the context that lowering a statement describes: the
   * module's blocks, functions and globals, the frame stack, the printf
   * and branch counters, and the printf declaration.
   */
  datatype Snapshot = Snapshot(blocks: seq<BasicBlock>, functions: seq<Function>, globals: seq<Global>,
                               frames: seq<Frame>, prints: nat, labels: nat, printf: Value)

  ghost function Snap(ctx: CodeGenContext): Snapshot
    reads ctx`blocks, ctx`functions, ctx`globals, ctx`frames, ctx.names`printfCount, ctx.names`branchCount,
          ctx`printfFunction
  {
    Snapshot(ctx.blocks, ctx.functions, ctx.globals, ctx.frames, ctx.names.printfCount, ctx.names.branchCount,
             ctx.printfFunction)
  }

  ghost function TopFrame(st: Snapshot): Frame
    requires 1 <= |st.frames|
  {
    st.frames[|st.frames| - 1]
  }

  /** The scope an expression is lowered in from st: the top frame's block and locals. */
  ghost function ScopeAt(st: Snapshot, args: map<string, Value>): Scope
    requires 1 <= |st.frames|
  {
    Scope(TopFrame(st).block, st.functions, st.printf, args, TopFrame(st).locals)
  }

  /** The value a `ret` instruction returns: null for `ret void`. */
  function Returned(i: Instr): Value
  {
    if i.Ret? && i.result.Some? then i.result.value else Null
  }

  /**
   * What every statement leaves of the state it started from: the block
   * of the top frame may grow at its end, every other existing block stays
   * as it was, functions and globals are only added, the counters never go
   * back and the printf declaration stays.
   */
  ghost predicate StmtFramed(st0: Snapshot, st1: Snapshot)
  {
    && 1 <= |st0.frames| && 1 <= |st1.frames|
    && TopFrame(st0).block < |st0.blocks|
    && Grew(st0.blocks, st1.blocks, TopFrame(st0).block)
    && st0.functions <= st1.functions && st0.globals <= st1.globals
    && st0.prints <= st1.prints && st0.labels <= st1.labels
    && st1.printf == st0.printf
  }

  /**
   * Statement s, lowered from st0, completed normally in st1 with value v:
   * it kept the frame of StmtFramed, and it left the code StmtCode says.
   */
  ghost predicate StmtRan(s: Stmt, v: Value, st0: Snapshot, st1: Snapshot, args: map<string, Value>)
    decreases s, 6
  {
    StmtFramed(st0, st1) && StmtCode(s, v, st0, st1, args)
  }

  /**
   * The code statement s left, lowered from st0 into st1 with value v, in
   * the block of st0's top frame. Per kind: an expression's run (ExprRan)
   * is all the block gained; a declaration appends its alloca, binds it and
   * runs its initializer as an assignment; a return runs its value and
   * ends with `ret` of it; a function declaration adds the function, its
   * entry block and prologue, and lowers its body there; a branch runs its
   * test, ends the block with its conditional branch and lowers each arm
   * into its own new block.
   */
  ghost predicate StmtCode(s: Stmt, v: Value, st0: Snapshot, st1: Snapshot, args: map<string, Value>)
    decreases s, 5
  {
    && 1 <= |st0.frames| && 1 <= |st1.frames|
    && TopFrame(st0).block < |st0.blocks| <= |st1.blocks|
    && match s
       case ExpressionStatement(e) =>
         var k := TopFrame(st0).block;
         var lo, g0 := |st0.blocks[k].body|, |st0.globals|;
         && st1.frames == st0.frames && |st1.blocks| == |st0.blocks|
         && lo <= |st1.blocks[k].body| && g0 <= |st1.globals|
         && ExprRan(e, v, ScopeAt(st0, args), lo, st1.blocks[k].body[lo..], g0, st1.globals[g0..], st0.prints)
       case VariableDeclaration(d) => DeclarationRan(d, v, st0, st1, args)
       case ReturnStatement(e) => ReturnRan(e, v, st0, st1, args)
       case FunctionDeclaration(_, _, _, _) =>
         && v == Fn(|st0.functions|) && st1.frames == st0.frames
         && exists stP, top :: FunctionRan(s, st0, stP, top, st1, args)
       case BranchStatement(_, _, _, _) =>
         && v == Null && st1.frames == st0.frames
         && exists stB, stT :: BranchRan(s, st0, stB, stT, st1, args)
  }

  /**
   * VariableDeclaration: its alloca at the old end of the current block,
   * the name bound to it in the top frame, and with an initializer the run
   * of the assignment of the initializer to that name, in the scope with
   * the binding; without one nothing else. The value is the slot.
   */
  ghost predicate DeclarationRan(d: VarDecl, v: Value, st0: Snapshot, st1: Snapshot, args: map<string, Value>)
  {
    && 1 <= |st0.frames| && 1 <= |st1.frames|
    && var k := TopFrame(st0).block;
    && k < |st0.blocks| <= |st1.blocks|
    && var n := |st0.blocks[k].body|;
    && var body := st1.blocks[k].body;
    && v == Inst(k, n) && n < |body|
    && body[n] == Alloca(d.name, TypeOf(d.typeName))
    && st1.frames == st0.frames[|st0.frames| - 1 := Frame(k, TopFrame(st0).locals[d.name := v])]
    && (d.assignmentExpression.None? ==>
          st1.blocks == Appended(st0.blocks, k, Alloca(d.name, TypeOf(d.typeName))) && st1.globals == st0.globals)
    && (d.assignmentExpression.Some? ==>
          && |st0.globals| <= |st1.globals|
          && ExprRan(Assignment(d.name, d.assignmentExpression.value), Inst(k, |body| - 1), ScopeAt(st1, args),
                     n + 1, body[n + 1..], |st0.globals|, st1.globals[|st0.globals|..], st0.prints))
  }

  /**
   * An initialized declaration ends with the store of the initializer's
   * value into the declaration's own slot.
   */
  lemma InitializerStoresIntoSlot(d: VarDecl, v: Value, st0: Snapshot, st1: Snapshot, args: map<string, Value>)
    requires d.assignmentExpression.Some? && DeclarationRan(d, v, st0, st1, args)
    ensures var body := st1.blocks[TopFrame(st0).block].body;
            && |st0.blocks[TopFrame(st0).block].body| + 1 < |body|
            && body[|body| - 1].Store? && body[|body| - 1].target == v
  {
    var k := TopFrame(st0).block;
    var n := |st0.blocks[k].body|;
    var body := st1.blocks[k].body;
    var code := body[n + 1..];
    AssignmentStores(d.name, d.assignmentExpression.value, Inst(k, |body| - 1), ScopeAt(st1, args), n + 1, code,
                     |st0.globals|, st1.globals[|st0.globals|..], st0.prints);
    assert code[|code| - 1] == body[|body| - 1];
  }

  /**
   * ReturnStatement: the run of its value, then `ret` of the value that run
   * yields; the value is the `ret`.
   */
  ghost predicate ReturnRan(e: Expr, v: Value, st0: Snapshot, st1: Snapshot, args: map<string, Value>)
  {
    && 1 <= |st0.frames| && st1.frames == st0.frames
    && var k := TopFrame(st0).block;
    && k < |st0.blocks| <= |st1.blocks|
    && var body := st1.blocks[k].body;
    && |st0.blocks[k].body| < |body| && v == Inst(k, |body| - 1)
    && body[|body| - 1] == RetOf(Returned(body[|body| - 1]))
    && |st0.globals| <= |st1.globals|
    && ExprRan(e, Returned(body[|body| - 1]), ScopeAt(st0, args), |st0.blocks[k].body|,
               body[|st0.blocks[k].body|..|body| - 1], |st0.globals|, st1.globals[|st0.globals|..], st0.prints)
  }

  /**
   * FunctionDeclaration, through stP (after the prologue) and the frame
   * `top` its body left on top: the function was entered as
   * FunctionEntered says, and the body was lowered in the entry block's
   * frame.
   */
  ghost predicate FunctionRan(s: Stmt, st0: Snapshot, stP: Snapshot, top: Frame, st1: Snapshot,
                              args: map<string, Value>)
    decreases s, 4
  {
    && FunctionEntered(s, st0, stP)
    && BlockRan(s.block, stP, st1.(frames := st1.frames + [top]), args)
  }

  /**
   * The function and its "entry" block were added, the entry block's frame
   * is on top, and every parameter is bound to the slot its argument was
   * stored into; without initializers the entry block is the prologue.
   */
  ghost predicate FunctionEntered(s: Stmt, st0: Snapshot, stP: Snapshot)
  {
    && s.FunctionDeclaration?
    && var f := |st0.functions|;
    && var entry := |st0.blocks|;
    && var ps := s.parameters;
    && stP.functions == st0.functions + [Function(s.functionName, TypeOf(s.functionType), ParamTypes(ps), false)]
    && |stP.blocks| == entry + 1 && Untouched(st0.blocks, stP.blocks)
    && stP.blocks[entry].blockName == "entry" && stP.blocks[entry].parent == f
    && |stP.frames| == |st0.frames| + 1 && stP.frames[..|st0.frames|] == st0.frames
    && stP.frames[|st0.frames|].block == entry
    && (forall k :: 0 <= k < |ps| ==>
          ParameterBound(ps, |ps|, k, f, entry, stP.blocks[entry].body, stP.frames[|st0.frames|].locals))
    && (NoInitializers(ps) ==> stP.blocks[entry].body == Prologue(f, entry, ps))
  }

  /**
   * BranchStatement, through stB (after the conditional branch) and stT
   * (after the true arm): the shape of BranchShape, then the true arm
   * lowered into the first new block and the false arm, if any, into the
   * second.
   */
  ghost predicate BranchRan(s: Stmt, st0: Snapshot, stB: Snapshot, stT: Snapshot, st1: Snapshot,
                            args: map<string, Value>)
    decreases s, 4
  {
    && BranchOpened(s, st0, stB, args)
    && ArmRan(s.blockTrue, |st0.blocks|, stB, stT, args)
    && (if s.hasFalseBranch then ArmRan(s.blockFalse, |st0.blocks| + 1, stT, st1, args) else stT == st1)
  }

  /**
   * The new block(s) and the conditional branch, as BranchShape says,
   * after the run of the test, whose value the conditional branch tests;
   * the frames are as before.
   */
  ghost predicate BranchOpened(s: Stmt, st0: Snapshot, stB: Snapshot, args: map<string, Value>)
  {
    && s.BranchStatement? && 1 <= |st0.frames|
    && TopFrame(st0).block < |st0.blocks|
    && stB.frames == st0.frames
    && BranchShape(s, st0.blocks, TopFrame(st0).block, st0.labels, stB.blocks)
    && var k := TopFrame(st0).block;
    && var lo, body := |st0.blocks[k].body|, stB.blocks[k].body;
    && |st0.globals| <= |stB.globals|
    && ExprRan(s.testExpression, body[|body| - 1].test, ScopeAt(st0, args), lo, body[lo..|body| - 1],
               |st0.globals|, stB.globals[|st0.globals|..], st0.prints)
  }

  /** An arm: the block lowered in a new frame on `block`, which is popped after. */
  ghost predicate ArmRan(arm: StatementBlock, block: nat, st0: Snapshot, st1: Snapshot, args: map<string, Value>)
    decreases arm, 3
  {
    && st1.frames == st0.frames
    && exists top :: BlockRan(arm, st0.(frames := st0.frames + [Frame(block, map[])]),
                              st1.(frames := st1.frames + [top]), args)
  }

  /** Block b, lowered from st0, completed normally in st1: some trace through all its statements. */
  ghost predicate BlockRan(b: StatementBlock, st0: Snapshot, st1: Snapshot, args: map<string, Value>)
    decreases b, 2
  {
    exists trace: seq<Snapshot>, values: seq<Value> ::
      && BlockTrace(b, trace, values, args)
      && |trace| == |b.statements| + 1 && trace[0] == st0 && trace[|trace| - 1] == st1
  }

  /**
   * The first |values| statements of b, lowered in order: statement j ran
   * from trace[j] to trace[j + 1] with value values[j].
   */
  ghost predicate BlockTrace(b: StatementBlock, trace: seq<Snapshot>, values: seq<Value>, args: map<string, Value>)
    decreases b, 1
  {
    && |trace| == |values| + 1 && |values| <= |b.statements|
    && forall j :: StepRan(b, trace, values, j, args)
  }

  ghost predicate StepRan(b: StatementBlock, trace: seq<Snapshot>, values: seq<Value>, j: int, args: map<string, Value>)
    decreases b, 0
  {
    0 <= j < |values| < |trace| && |values| <= |b.statements| ==>
      StmtRan(b.statements[j], values[j], trace[j], trace[j + 1], args)
  }

  /**
   * A branch whose test and blocks were opened, whose true arm ran into the
   * first new block and whose false arm, if any, ran into the second, has
   * run as a statement valued null.
   */
  lemma BranchStmtCode(s: Stmt, st0: Snapshot, stB: Snapshot, stT: Snapshot, st1: Snapshot,
                      args: map<string, Value>)
    requires BranchOpened(s, st0, stB, args)
    requires ArmRan(s.blockTrue, |st0.blocks|, stB, stT, args)
    requires if s.hasFalseBranch then ArmRan(s.blockFalse, |st0.blocks| + 1, stT, st1, args) else stT == st1
    requires st1.frames == st0.frames && |st0.blocks| <= |st1.blocks|
    ensures StmtCode(s, Null, st0, st1, args)
  {
    assert BranchRan(s, st0, stB, stT, st1, args);
  }

  /** A trace through every statement of the block is a run of the block. */
  lemma BlockRanByTrace(b: StatementBlock, trace: seq<Snapshot>, values: seq<Value>, args: map<string, Value>)
    requires BlockTrace(b, trace, values, args) && |values| == |b.statements|
    ensures BlockRan(b, trace[0], trace[|trace| - 1], args)
  {
  }

  /**
   * StatementBlock::codeGen runs its statements in order: a block ending in
   * s ran from st0 to st2 exactly when the statements before s ran from st0
   * to some st1 and s then ran from st1 to st2.
   */
  lemma BlockRanSnoc(ss: seq<Stmt>, s: Stmt, st0: Snapshot, st2: Snapshot, args: map<string, Value>)
    ensures BlockRan(StatementBlock(ss + [s]), st0, st2, args) <==>
            exists st1, v :: BlockRan(StatementBlock(ss), st0, st1, args) && StmtRan(s, v, st1, st2, args)
  {
    if BlockRan(StatementBlock(ss + [s]), st0, st2, args) {
      BlockRanLast(ss, s, st0, st2, args);
    }
    if exists st1, v :: BlockRan(StatementBlock(ss), st0, st1, args) && StmtRan(s, v, st1, st2, args) {
      var st1, v :| BlockRan(StatementBlock(ss), st0, st1, args) && StmtRan(s, v, st1, st2, args);
      BlockRanExtend(ss, s, st0, st1, v, st2, args);
    }
  }

  /** The "only if" half of BlockRanSnoc. */
  lemma BlockRanLast(ss: seq<Stmt>, s: Stmt, st0: Snapshot, st2: Snapshot, args: map<string, Value>)
    requires BlockRan(StatementBlock(ss + [s]), st0, st2, args)
    ensures exists st1, v :: BlockRan(StatementBlock(ss), st0, st1, args) && StmtRan(s, v, st1, st2, args)
  {
    var b, b' := StatementBlock(ss), StatementBlock(ss + [s]);
    var n := |ss|;
    var trace, values :|
      BlockTrace(b', trace, values, args) && |trace| == |b'.statements| + 1 && trace[0] == st0 && trace[|trace| - 1] == st2;
    var trace0, values0 := trace[..n + 1], values[..n];
    forall j
      ensures StepRan(b, trace0, values0, j, args)
    {
      if 0 <= j < n {
        assert StepRan(b', trace, values, j, args);
      }
    }
    assert BlockTrace(b, trace0, values0, args) && trace0[|trace0| - 1] == trace[n];
    assert StepRan(b', trace, values, n, args);
    assert StmtRan(s, values[n], trace[n], st2, args);
  }

  /** The "if" half of BlockRanSnoc. */
  lemma BlockRanExtend(ss: seq<Stmt>, s: Stmt, st0: Snapshot, st1: Snapshot, v: Value, st2: Snapshot,
                       args: map<string, Value>)
    requires BlockRan(StatementBlock(ss), st0, st1, args) && StmtRan(s, v, st1, st2, args)
    ensures BlockRan(StatementBlock(ss + [s]), st0, st2, args)
  {
    var b, b' := StatementBlock(ss), StatementBlock(ss + [s]);
    var n := |ss|;
    var trace, values :|
      BlockTrace(b, trace, values, args) && |trace| == |b.statements| + 1 && trace[0] == st0 && trace[|trace| - 1] == st1;
    var trace', values' := trace + [st2], values + [v];
    forall j
      ensures StepRan(b', trace', values', j, args)
    {
      if 0 <= j < n {
        assert StepRan(b, trace, values, j, args);
      }
    }
    assert BlockTrace(b', trace', values', args);
  }

  /** One more statement lowered extends the trace. */
  lemma BlockTraceExtend(b: StatementBlock, trace: seq<Snapshot>, values: seq<Value>, v: Value, st: Snapshot,
                         args: map<string, Value>)
    requires BlockTrace(b, trace, values, args) && |values| < |b.statements|
    requires StmtRan(b.statements[|values|], v, trace[|trace| - 1], st, args)
    ensures BlockTrace(b, trace + [st], values + [v], args)
  {
    var trace', values' := trace + [st], values + [v];
    forall j
      ensures StepRan(b, trace', values', j, args)
    {
      if 0 <= j < |values| {
        assert StepRan(b, trace, values, j, args);
        assert trace'[j] == trace[j] && trace'[j + 1] == trace[j + 1] && values'[j] == values[j];
      } else if j == |values| {
        assert trace'[j] == trace[|trace| - 1] && trace'[j + 1] == st && values'[j] == v;
      }
    }
  }

  /**
   * `int x; x = 5;` leaves exactly two instructions at the end of the
   * current block: the alloca of x, then the store of 5 into that alloca.
   */
  lemma DeclareThenAssign(st0: Snapshot, st2: Snapshot, args: map<string, Value>)
    requires 1 <= |st0.frames|
    requires BlockRan(StatementBlock([VariableDeclaration(DeclarationWithoutInitializer("int", "x")),
                                      ExpressionStatement(Assignment("x", Integer(5)))]), st0, st2, args)
    ensures var k := TopFrame(st0).block;
            && k < |st0.blocks| <= |st2.blocks|
            && st2.blocks[k].body == st0.blocks[k].body + [Alloca("x", Int32Ty), Store(ConstInt(5), Inst(k, |st0.blocks[k].body|))]
  {
    var b := StatementBlock([VariableDeclaration(DeclarationWithoutInitializer("int", "x")),
                             ExpressionStatement(Assignment("x", Integer(5)))]);
    var trace: seq<Snapshot>, values: seq<Value> :| BlockTrace(b, trace, values, args) && |trace| == 3 && trace[0] == st0 && trace[2] == st2;
    assert StepRan(b, trace, values, 0, args) && StepRan(b, trace, values, 1, args);
    DeclaredX(st0, trace[1], values[0], args);
    AssignedFive(trace[1], st2, values[1], args);
  }

  /** `int x;` appends the alloca of x and binds x to it. */
  lemma DeclaredX(st0: Snapshot, st1: Snapshot, v: Value, args: map<string, Value>)
    requires StmtRan(VariableDeclaration(DeclarationWithoutInitializer("int", "x")), v, st0, st1, args)
    ensures 1 <= |st0.frames| && 1 <= |st1.frames| && TopFrame(st1).block == TopFrame(st0).block
    ensures var k := TopFrame(st0).block;
            && k < |st0.blocks| <= |st1.blocks|
            && st1.blocks[k].body == st0.blocks[k].body + [Alloca("x", Int32Ty)]
            && "x" in TopFrame(st1).locals && TopFrame(st1).locals["x"] == Inst(k, |st0.blocks[k].body|)
  {
  }

  /** `x = 5;`, with x bound to a slot, appends the store of 5 into that slot. */
  lemma AssignedFive(st1: Snapshot, st2: Snapshot, v: Value, args: map<string, Value>)
    requires StmtRan(ExpressionStatement(Assignment("x", Integer(5))), v, st1, st2, args)
    ensures 1 <= |st1.frames| && TopFrame(st1).block < |st1.blocks| <= |st2.blocks|
    ensures var k := TopFrame(st1).block;
            && "x" in TopFrame(st1).locals
            && st2.blocks[k].body == st1.blocks[k].body + [Store(ConstInt(5), TopFrame(st1).locals["x"])]
  {
    var k := TopFrame(st1).block;
    var lo := |st1.blocks[k].body|;
    var code := st2.blocks[k].body[lo..];
    var sc := ScopeAt(st1, args);
    assert ExprRan(Assignment("x", Integer(5)), v, sc, lo, code, |st1.globals|, st2.globals[|st1.globals|..], st1.prints);
    assert |code| == 1 && code[0].Store? && code[0].target == sc.locals["x"];
    assert ExprRan(Integer(5), code[0].stored, sc, lo, code[..0], |st1.globals|, st2.globals[|st1.globals|..], st1.prints);
    assert st2.blocks[k].body == st1.blocks[k].body + code;
  }

  /** The statement `f(1);` appends exactly the call of f, found by name, on the constant 1. */
  lemma CallStatementCalls(v: Value, st0: Snapshot, st1: Snapshot, args: map<string, Value>)
    requires StmtRan(ExpressionStatement(MethodCall("f", [Integer(1)])), v, st0, st1, args)
    ensures 1 <= |st0.frames| && TopFrame(st0).block < |st0.blocks| <= |st1.blocks|
    ensures var k := TopFrame(st0).block;
            st1.blocks[k].body == st0.blocks[k].body + [Call(Callee(st0.functions, "f"), [ConstInt(1)])]
  {
    var e := MethodCall("f", [Integer(1)]);
    var k := TopFrame(st0).block;
    var lo := |st0.blocks[k].body|;
    var code := st1.blocks[k].body[lo..];
    var sc := ScopeAt(st0, args);
    var gs := st1.globals[|st0.globals|..];
    assert ExprRan(e, v, sc, lo, code, |st0.globals|, gs, st0.prints);
    assert CodeLenOf(e.arguments, sc) == 0 by {
      assert e.arguments[..0] == [];
    }
    assert |code| == 1 && code[0].Call? && code[0].callee == Callee(st0.functions, "f");
    assert ArgsRan(e.arguments, code[0].args, sc, lo, code[..0], |st0.globals|, gs, st0.prints);
    assert e.arguments[..0] == [];
    assert code[0].args == [ConstInt(1)];
    assert st1.blocks[k].body == st0.blocks[k].body + code;
  }

  /**
   * After the first i statements of b, lowered from st0: the context is
   * still lowering in st0's scope, it changed as a statement may, the
   * counters advanced by what those statements take, and trace and values
   * record each of them.
   */
  ghost predicate BlockLowered(ctx: CodeGenContext, b: StatementBlock, i: nat, trace: seq<Snapshot>, values: seq<Value>,
                               st0: Snapshot)
    reads ctx`frames, ctx`blocks, ctx`functions, ctx`globals, ctx`globalIds, ctx`printfFunction, ctx.names
  {
    && i <= |b.statements| && 1 <= |st0.frames|
    && ctx.Lowering() && SameScope(ctx, st0.frames)
    && StmtStep(ctx, st0.blocks, st0.functions, st0.globals, TopFrame(st0).block, st0.prints, st0.labels)
    && ctx.names.printfCount == st0.prints + |BlockPrintFormats(b.statements[..i])|
    && ctx.names.branchCount == st0.labels + BlockBranchLabels(b.statements[..i])
    && |values| == i && |trace| == i + 1 && BlockTrace(b, trace, values, ctx.functionArguments)
    && trace[0] == st0 && trace[i] == Snap(ctx)
  }

  /** StatementBlock::codeGen: the statements in order, each in the context the previous one left. */
  method LowerBlock(ctx: CodeGenContext, b: StatementBlock)
    returns (r: Completion, ghost trace: seq<Snapshot>, ghost values: seq<Value>)
    requires ctx.Lowering()
    requires PrintsFit(ctx.names.printfCount, BlockPrintFormats(b.statements))
    requires LabelsFit(ctx.names.branchCount, BlockBranchLabels(b.statements))
    modifies ctx`blocks, ctx`globals, ctx`globalIds, ctx`frames, ctx`functions, ctx.names
    decreases b, 1
    ensures ctx.Lowering()
    ensures StmtStep(ctx, old(ctx.blocks), old(ctx.functions), old(ctx.globals), old(ctx.Cur()),
                     old(ctx.names.printfCount), old(ctx.names.branchCount))
    ensures r.Normal? ==>
              && SameScope(ctx, old(ctx.frames))
              && ctx.names.printfCount == old(ctx.names.printfCount) + |BlockPrintFormats(b.statements)|
              && ctx.names.branchCount == old(ctx.names.branchCount) + BlockBranchLabels(b.statements)
    ensures b.statements == [] ==>
              && r == Normal(Null) && ctx.blocks == old(ctx.blocks) && ctx.functions == old(ctx.functions)
              && ctx.globals == old(ctx.globals) && ctx.frames == old(ctx.frames)
    ensures 1 <= |trace| && trace[0] == old(Snap(ctx)) && BlockTrace(b, trace, values, ctx.functionArguments)
    ensures r.Normal? ==>
              && |values| == |b.statements| && trace[|trace| - 1] == Snap(ctx)
              && r.value == (if values == [] then Null else values[|values| - 1])
    ensures r.Exited? ==> |values| < |b.statements|
  {
    var ss := b.statements;
    r := Normal(Null);
    trace, values := [Snap(ctx)], [];
    if ss == [] {
      return;
    }
    var i := 0;
    while i < |ss|
      invariant 0 <= i <= |ss| && r.Normal?
      invariant BlockLowered(ctx, b, i, trace, values, old(Snap(ctx)))
      invariant r.value == (if i == 0 then Null else values[i - 1])
    {
      r, trace, values := LowerNext(ctx, b, i, trace, values, old(Snap(ctx)));
      if r.Exited? {
        return;
      }
      i := i + 1;
    }
    assert ss[..i] == ss;
  }

  /**
   * One turn of StatementBlock::codeGen's loop: statement i lowered, and
   * the trace of the statements before it extended by one more.
   */
  method LowerNext(ctx: CodeGenContext, b: StatementBlock, i: nat, ghost trace: seq<Snapshot>, ghost values: seq<Value>,
                   ghost st0: Snapshot)
    returns (r: Completion, ghost trace': seq<Snapshot>, ghost values': seq<Value>)
    requires i < |b.statements| && BlockLowered(ctx, b, i, trace, values, st0)
    requires PrintsFit(st0.prints, BlockPrintFormats(b.statements))
    requires LabelsFit(st0.labels, BlockBranchLabels(b.statements))
    modifies ctx`blocks, ctx`globals, ctx`globalIds, ctx`frames, ctx`functions, ctx.names
    decreases b, 0
    ensures ctx.Lowering()
    ensures StmtStep(ctx, st0.blocks, st0.functions, st0.globals, TopFrame(st0).block, st0.prints, st0.labels)
    ensures r.Exited? ==> trace' == trace && values' == values
    ensures r.Normal? ==> BlockLowered(ctx, b, i + 1, trace', values', st0) && r.value == values'[i]
  {
    var ss := b.statements;
    StatementBudget(st0.prints, st0.labels, ss, i);
    ghost var b1, f1, g1, p1, l1 := ctx.blocks, ctx.functions, ctx.globals, ctx.names.printfCount, ctx.names.branchCount;
    trace', values' := trace, values;
    r := LowerStmt(ctx, ss[i]);
    StmtStepTransitive(ctx, st0.blocks, b1, st0.functions, f1, st0.globals, g1, TopFrame(st0).block,
                       st0.prints, p1, st0.labels, l1);
    if r.Exited? {
      return;
    }
    BlockTraceExtend(b, trace, values, r.value, Snap(ctx), ctx.functionArguments);
    trace', values' := trace + [Snap(ctx)], values + [r.value];
  }

  /** Dispatch over the statement kinds (the virtual codeGen call). */
  method LowerStmt(ctx: CodeGenContext, s: Stmt) returns (r: Completion)
    requires ctx.Lowering()
    requires PrintsFit(ctx.names.printfCount, StmtPrintFormats(s))
    requires LabelsFit(ctx.names.branchCount, BranchLabels(s))
    modifies ctx`blocks, ctx`globals, ctx`globalIds, ctx`frames, ctx`functions, ctx.names
    decreases s, 3
    ensures ctx.Lowering()
    ensures StmtStep(ctx, old(ctx.blocks), old(ctx.functions), old(ctx.globals), old(ctx.Cur()),
                     old(ctx.names.printfCount), old(ctx.names.branchCount))
    ensures r.Normal? ==>
              && SameScope(ctx, old(ctx.frames))
              && ctx.names.printfCount == old(ctx.names.printfCount) + |StmtPrintFormats(s)|
              && ctx.names.branchCount == old(ctx.names.branchCount) + BranchLabels(s)
    ensures r.Normal? && !s.VariableDeclaration? ==> ctx.frames == old(ctx.frames)
    ensures r.Normal? ==> StmtRan(s, r.value, old(Snap(ctx)), Snap(ctx), ctx.functionArguments)
  {
    match s
    case ExpressionStatement(_) =>
      r := LowerExpressionStatement(ctx, s);
    case VariableDeclaration(d) =>
      r := LowerVariableDeclaration(ctx, d);
    case FunctionDeclaration(_, _, _, _) =>
      r := LowerFunctionDeclaration(ctx, s);
    case ReturnStatement(_) =>
      ghost var returned;
      r, returned := LowerReturn(ctx, s);
    case BranchStatement(_, _, _, _) =>
      r := LowerBranch(ctx, s);
    if r.Normal? {
      StmtRanFrom(ctx, s, r.value, old(Snap(ctx)));
    }
  }

  /** A statement step from st0 that left StmtCode's code has run. */
  lemma StmtRanFrom(ctx: CodeGenContext, s: Stmt, v: Value, st0: Snapshot)
    requires 1 <= |st0.frames| && 1 <= |ctx.frames| && TopFrame(st0).block < |st0.blocks|
    requires StmtStep(ctx, st0.blocks, st0.functions, st0.globals, TopFrame(st0).block, st0.prints, st0.labels)
    requires ctx.printfFunction == st0.printf
    requires StmtCode(s, v, st0, Snap(ctx), ctx.functionArguments)
    ensures StmtRan(s, v, st0, Snap(ctx), ctx.functionArguments)
  {
  }

  /** ExpressionStatement::codeGen: the expression lowered in the current block; its value is the statement's. */
  method LowerExpressionStatement(ctx: CodeGenContext, s: Stmt) returns (r: Completion)
    requires s.ExpressionStatement?
    requires ctx.Lowering() && PrintsFit(ctx.names.printfCount, PrintFormats(s.expression))
    modifies ctx`blocks, ctx`globals, ctx`globalIds, ctx.names
    ensures ctx.Lowering()
    ensures ExprStep(ctx, old(ctx.blocks), old(ctx.globals), old(ctx.names.printfCount), old(ctx.names.branchCount))
    ensures r.Normal? ==> ctx.names.printfCount == old(ctx.names.printfCount) + |PrintFormats(s.expression)|
    ensures r.Normal? ==> StmtCode(s, r.value, old(Snap(ctx)), Snap(ctx), ctx.functionArguments)
  {
    r := LowerExpr(ctx, s.expression);
    assert ScopeAt(old(Snap(ctx)), ctx.functionArguments) == ScopeOf(ctx);
  }

  /**
   * VariableDeclaration::codeGen: a stack slot of the declared type at the
   * end of the current block, bound to the name in the top frame, then the
   * initializer (if any) lowered as an Assignment to that name. The
   * declaration's value is the slot.
   */
  method LowerVariableDeclaration(ctx: CodeGenContext, d: VarDecl) returns (r: Completion)
    requires ctx.Lowering() && PrintsFit(ctx.names.printfCount, DeclPrintFormats(d))
    modifies ctx`blocks, ctx`globals, ctx`globalIds, ctx`frames, ctx.names
    ensures ctx.Lowering()
    ensures ctx.frames ==
              var slot := Inst(old(ctx.Cur()), |old(ctx.blocks[ctx.Cur()].body)|);
              old(ctx.frames)[|old(ctx.frames)| - 1 := Frame(old(ctx.Cur()), old(ctx.Locals())[d.name := slot])]
    ensures ExprStep(ctx, old(ctx.blocks), old(ctx.globals), old(ctx.names.printfCount), old(ctx.names.branchCount))
    ensures |old(ctx.blocks[ctx.Cur()].body)| < |ctx.blocks[ctx.Cur()].body|
    ensures ctx.blocks[ctx.Cur()].body[|old(ctx.blocks[ctx.Cur()].body)|] == Alloca(d.name, TypeOf(d.typeName))
    ensures d == DeclarationWithoutInitializer(d.typeName, d.name) ==>
              && r == Normal(Inst(ctx.Cur(), |old(ctx.blocks[ctx.Cur()].body)|))
              && ctx.blocks == Appended(old(ctx.blocks), ctx.Cur(), Alloca(d.name, TypeOf(d.typeName)))
              && ctx.globals == old(ctx.globals) && ctx.names.printfCount == old(ctx.names.printfCount)
    ensures r.Normal? ==>
              && r == Normal(Inst(ctx.Cur(), |old(ctx.blocks[ctx.Cur()].body)|))
              && ctx.names.printfCount == old(ctx.names.printfCount) + |DeclPrintFormats(d)|
    ensures r.Normal? ==> DeclarationRan(d, r.value, old(Snap(ctx)), Snap(ctx), ctx.functionArguments)
  {
    var alloca := Alloca(d.name, TypeOf(d.typeName));
    var slot := ctx.AppendTo(ctx.Cur(), alloca);
    AppendStep(old(ctx.blocks), ctx.Cur(), alloca);
    ctx.Bind(d.name, slot);
    if d.assignmentExpression.Some? {
      ghost var b1, g1, p1 := ctx.blocks, ctx.globals, ctx.names.printfCount;
      r := LowerInitializer(ctx, d, slot, old(Snap(ctx)));
      ExprStepTransitive(ctx, old(ctx.blocks), b1, old(ctx.globals), g1, old(ctx.names.printfCount), p1, old(ctx.names.branchCount));
    } else {
      r := Normal(slot);
    }
  }

  /**
   * The initializer of a VariableDeclaration, lowered as an Assignment to
   * the name just bound to `slot`, the alloca the declaration appended to
   * st0's current block.
   */
  method LowerInitializer(ctx: CodeGenContext, d: VarDecl, slot: Value, ghost st0: Snapshot) returns (r: Completion)
    requires d.assignmentExpression.Some? && ctx.Lowering()
    requires PrintsFit(ctx.names.printfCount, DeclPrintFormats(d))
    requires 1 <= |st0.frames| && TopFrame(st0).block == ctx.Cur() < |st0.blocks|
    requires slot == Inst(ctx.Cur(), |st0.blocks[ctx.Cur()].body|)
    requires ctx.blocks == Appended(st0.blocks, ctx.Cur(), Alloca(d.name, TypeOf(d.typeName)))
    requires ctx.frames == st0.frames[|st0.frames| - 1 := Frame(ctx.Cur(), TopFrame(st0).locals[d.name := slot])]
    requires ctx.globals == st0.globals && ctx.names.printfCount == st0.prints
    modifies ctx`blocks, ctx`globals, ctx`globalIds, ctx.names
    ensures ctx.Lowering()
    ensures ExprStep(ctx, old(ctx.blocks), old(ctx.globals), old(ctx.names.printfCount), old(ctx.names.branchCount))
    ensures r.Normal? ==>
              && r == Normal(slot)
              && ctx.names.printfCount == old(ctx.names.printfCount) + |DeclPrintFormats(d)|
              && DeclarationRan(d, slot, st0, Snap(ctx), ctx.functionArguments)
  {
    r := LowerAssignment(ctx, d.name, d.assignmentExpression.value);
    if r.Exited? {
      return;
    }
    assert ScopeAt(Snap(ctx), ctx.functionArguments) == ScopeOf(ctx);
    ghost var lo, body := |old(ctx.blocks[ctx.Cur()].body)|, ctx.blocks[ctx.Cur()].body;
    AssignmentStores(d.name, d.assignmentExpression.value, r.value, ScopeOf(ctx), lo, body[lo..],
                     |old(ctx.globals)|, ctx.globals[|old(ctx.globals)|..], old(ctx.names.printfCount));
    r := Normal(slot);
  }

  /**
   * ReturnStatement::codeGen: the value, then `ret` of it at the end of the
   * current block; `returned` names the value the `ret` carries.
   */
  method LowerReturn(ctx: CodeGenContext, s: Stmt) returns (r: Completion, ghost returned: Value)
    requires s.ReturnStatement?
    requires ctx.Lowering() && PrintsFit(ctx.names.printfCount, PrintFormats(s.value))
    modifies ctx`blocks, ctx`globals, ctx`globalIds, ctx.names
    ensures ctx.Lowering()
    ensures Grew(old(ctx.blocks), ctx.blocks, ctx.Cur()) && |ctx.blocks| == |old(ctx.blocks)|
    ensures old(ctx.globals) <= ctx.globals && old(ctx.names.printfCount) <= ctx.names.printfCount
    ensures ctx.names.branchCount == old(ctx.names.branchCount)
    ensures r.Normal? ==>
              var body := ctx.blocks[ctx.Cur()].body;
              && |old(ctx.blocks[ctx.Cur()].body)| < |body|
              && ctx.names.printfCount == old(ctx.names.printfCount) + |PrintFormats(s.value)|
              && r.value == Inst(ctx.Cur(), |body| - 1)
              && body[|body| - 1] == RetOf(returned)
    ensures r.Normal? ==> StmtCode(s, r.value, old(Snap(ctx)), Snap(ctx), ctx.functionArguments)
  {
    returned := Null;
    var value := LowerExpr(ctx, s.value);
    if value.Exited? {
      return Exited, returned;
    }
    returned := value.value;
    ghost var b1 := ctx.blocks;
    var v := ctx.AppendTo(ctx.Cur(), RetOf(value.value));
    GrewTransitive(old(ctx.blocks), b1, ctx.blocks, ctx.Cur());
    ghost var lo, body := |old(ctx.blocks[ctx.Cur()].body)|, ctx.blocks[ctx.Cur()].body;
    assert body[lo..|body| - 1] == b1[ctx.Cur()].body[lo..];
    assert ScopeAt(old(Snap(ctx)), ctx.functionArguments) == ScopeOf(ctx);
    r := Normal(v);
  }

  /**
   * FunctionDeclaration::codeGen, up to the body: the function (typeOf of
   * each parameter type, not variadic), its "entry" block as a new frame,
   * and per parameter a VariableDeclaration followed by a store of the
   * incoming argument into that declaration's slot.
   */
  method EnterFunction(ctx: CodeGenContext, s: Stmt) returns (r: Completion, f: nat, entry: nat)
    requires s.FunctionDeclaration?
    requires ctx.Lowering() && PrintsFit(ctx.names.printfCount, DeclsPrintFormats(s.parameters))
    modifies ctx`blocks, ctx`globals, ctx`globalIds, ctx`frames, ctx`functions, ctx.names
    ensures ctx.Lowering()
    ensures f == |old(ctx.functions)|
    ensures ctx.functions == old(ctx.functions) + [Function(s.functionName, TypeOf(s.functionType), ParamTypes(s.parameters), false)]
    ensures entry == |old(ctx.blocks)| && |ctx.blocks| == entry + 1 && Untouched(old(ctx.blocks), ctx.blocks)
    ensures ctx.blocks[entry].blockName == "entry" && ctx.blocks[entry].parent == f
    ensures |ctx.frames| == |old(ctx.frames)| + 1 && ctx.frames[..|old(ctx.frames)|] == old(ctx.frames) && ctx.Cur() == entry
    ensures old(ctx.globals) <= ctx.globals && old(ctx.names.printfCount) <= ctx.names.printfCount
    ensures ctx.names.branchCount == old(ctx.names.branchCount)
    ensures r.Normal? ==> ctx.names.printfCount == old(ctx.names.printfCount) + |DeclsPrintFormats(s.parameters)|
    ensures r.Normal? && NoInitializers(s.parameters) ==>
              ctx.blocks[entry].body == Prologue(f, entry, s.parameters)
    ensures r.Normal? ==> FunctionEntered(s, old(Snap(ctx)), Snap(ctx))
  {
    f := ctx.AddFunction(Function(s.functionName, TypeOf(s.functionType), ParamTypes(s.parameters), false));
    entry := ctx.NewBlock("entry", f);
    ctx.PushBlock(entry);
    r := LowerParameters(ctx, s.parameters, f, entry);
    assert Snap(ctx).frames[|old(ctx.frames)|].locals == ctx.Locals();
  }

  /** FunctionDeclaration's parameter loop, in the frame of the function's entry block. */
  method LowerParameters(ctx: CodeGenContext, ps: seq<VarDecl>, f: nat, entry: nat) returns (r: Completion)
    requires ctx.Lowering() && ctx.Cur() == entry && ctx.blocks[entry].body == [] && ctx.Locals() == map[]
    requires PrintsFit(ctx.names.printfCount, DeclsPrintFormats(ps))
    modifies ctx`blocks, ctx`globals, ctx`globalIds, ctx`frames, ctx.names
    ensures ctx.Lowering()
    ensures Grew(old(ctx.blocks), ctx.blocks, entry) && |ctx.blocks| == |old(ctx.blocks)|
    ensures |ctx.frames| == |old(ctx.frames)| && ctx.Cur() == entry
    ensures ctx.frames[..|ctx.frames| - 1] == old(ctx.frames[..|ctx.frames| - 1])
    ensures old(ctx.globals) <= ctx.globals && old(ctx.names.printfCount) <= ctx.names.printfCount
    ensures ctx.names.branchCount == old(ctx.names.branchCount)
    ensures r.Normal? ==>
              && ctx.names.printfCount == old(ctx.names.printfCount) + |DeclsPrintFormats(ps)|
              && forall k :: 0 <= k < |ps| ==> ParameterBound(ps, |ps|, k, f, entry, ctx.blocks[entry].body, ctx.Locals())
    ensures r.Normal? && NoInitializers(ps) ==>
              ctx.blocks[entry].body == Prologue(f, entry, ps)
  {
    r := Normal(Null);
    var i := 0;
    while i < |ps|
      invariant 0 <= i <= |ps| && r.Normal?
      invariant ctx.Lowering()
      invariant InEntry(old(ctx.blocks), ctx.blocks, old(ctx.frames), ctx.frames, entry)
      invariant old(ctx.globals) <= ctx.globals && ctx.names.branchCount == old(ctx.names.branchCount)
      invariant ctx.names.printfCount == old(ctx.names.printfCount) + |DeclsPrintFormats(ps[..i])|
      invariant ParametersLowered(ps, i, f, entry, ctx.blocks[entry].body, ctx.Locals())
    {
      ParameterBudget(old(ctx.names.printfCount), ps, i);
      ghost var b1, fr1 := ctx.blocks, ctx.frames;
      r := LowerParameter(ctx, ps, f, i, entry);
      InEntryTransitive(old(ctx.blocks), b1, ctx.blocks, old(ctx.frames), fr1, ctx.frames, entry);
      if r.Exited? {
        return;
      }
      i := i + 1;
    }
    assert ps[..i] == ps;
  }

  /**
   * One turn of FunctionDeclaration's parameter loop: parameter i's
   * VariableDeclaration, then, at the end of the function's entry block,
   * the store of argument i of function f into the slot its name now has.
   */
  method LowerParameter(ctx: CodeGenContext, ps: seq<VarDecl>, f: nat, i: nat, entry: nat) returns (r: Completion)
    requires i < |ps|
    requires ctx.Lowering() && ctx.Cur() == entry && PrintsFit(ctx.names.printfCount, DeclPrintFormats(ps[i]))
    requires ParametersLowered(ps, i, f, entry, ctx.blocks[entry].body, ctx.Locals())
    modifies ctx`blocks, ctx`globals, ctx`globalIds, ctx`frames, ctx.names
    ensures ctx.Lowering()
    ensures InEntry(old(ctx.blocks), ctx.blocks, old(ctx.frames), ctx.frames, entry)
    ensures old(ctx.globals) <= ctx.globals && old(ctx.names.printfCount) <= ctx.names.printfCount
    ensures ctx.names.branchCount == old(ctx.names.branchCount)
    ensures r.Normal? ==>
              && ctx.names.printfCount == old(ctx.names.printfCount) + |DeclPrintFormats(ps[i])|
              && ParametersLowered(ps, i + 1, f, entry, ctx.blocks[entry].body, ctx.Locals())
              && ParameterLowered(ps[i], f, i, entry, old(ctx.blocks[entry].body), ctx.blocks[entry].body,
                                  old(ctx.Locals()), ctx.Locals())
  {
    r := LowerVariableDeclaration(ctx, ps[i]);
    if r.Exited? {
      return;
    }
    ghost var b1 := ctx.blocks;
    var _ := ctx.AppendTo(entry, Store(Arg(f, i), ctx.Locals()[ps[i].name]));
    GrewTransitive(old(ctx.blocks), b1, ctx.blocks, entry);
    PrologueStep(f, entry, ps, i);
    ParametersLoweredStep(ps, i, f, entry, old(ctx.blocks[entry].body), ctx.blocks[entry].body,
                          old(ctx.Locals()), ctx.Locals());
  }

  /** FunctionDeclaration::codeGen: enter the function, lower its body, leave its frame. */
  method LowerFunctionDeclaration(ctx: CodeGenContext, s: Stmt) returns (r: Completion)
    requires s.FunctionDeclaration?
    requires ctx.Lowering()
    requires PrintsFit(ctx.names.printfCount, StmtPrintFormats(s))
    requires LabelsFit(ctx.names.branchCount, BranchLabels(s))
    modifies ctx`blocks, ctx`globals, ctx`globalIds, ctx`frames, ctx`functions, ctx.names
    decreases s, 1
    ensures ctx.Lowering()
    ensures StmtStep(ctx, old(ctx.blocks), old(ctx.functions), old(ctx.globals), old(ctx.Cur()),
                     old(ctx.names.printfCount), old(ctx.names.branchCount))
    ensures Untouched(old(ctx.blocks), ctx.blocks) && |old(ctx.blocks)| < |ctx.blocks|
    ensures ctx.blocks[|old(ctx.blocks)|].blockName == "entry"
    ensures ctx.blocks[|old(ctx.blocks)|].parent == |old(ctx.functions)|
    ensures |old(ctx.functions)| < |ctx.functions|
    ensures ctx.functions[|old(ctx.functions)|] ==
              Function(s.functionName, TypeOf(s.functionType), ParamTypes(s.parameters), false)
    ensures r.Normal? ==>
              && r.value == Fn(|old(ctx.functions)|) && ctx.frames == old(ctx.frames)
              && ctx.names.printfCount == old(ctx.names.printfCount) + |StmtPrintFormats(s)|
              && ctx.names.branchCount == old(ctx.names.branchCount) + BranchLabels(s)
    ensures r.Normal? && NoInitializers(s.parameters) ==>
              Prologue(|old(ctx.functions)|, |old(ctx.blocks)|, s.parameters) <= ctx.blocks[|old(ctx.blocks)|].body
    ensures r.Normal? ==> StmtCode(s, r.value, old(Snap(ctx)), Snap(ctx), ctx.functionArguments)
  {
    FunctionBudget(ctx.names.printfCount, s);
    var f, entry;
    r, f, entry := EnterFunction(ctx, s);
    if r.Exited? {
      return;
    }
    r := LowerFunctionBody(ctx, s, old(Snap(ctx)));
    if r.Exited? {
      return;
    }
    r := Normal(Fn(f));
  }

  /**
   * The rest of FunctionDeclaration::codeGen: the body lowered in the
   * frame of the function's entry block, which is popped after.
   */
  method LowerFunctionBody(ctx: CodeGenContext, s: Stmt, ghost st0: Snapshot) returns (r: Completion)
    requires s.FunctionDeclaration? && ctx.Lowering()
    requires 1 <= |st0.frames| && TopFrame(st0).block < |st0.blocks|
    requires FunctionEntered(s, st0, Snap(ctx))
    requires PrintsFit(ctx.names.printfCount, BlockPrintFormats(s.block.statements))
    requires LabelsFit(ctx.names.branchCount, BlockBranchLabels(s.block.statements))
    modifies ctx`blocks, ctx`globals, ctx`globalIds, ctx`frames, ctx`functions, ctx.names
    decreases s, 0
    ensures ctx.Lowering()
    ensures StmtStep(ctx, old(ctx.blocks), old(ctx.functions), old(ctx.globals), old(ctx.Cur()),
                     old(ctx.names.printfCount), old(ctx.names.branchCount))
    ensures r.Normal? ==>
              && ctx.frames == old(ctx.frames)[..|old(ctx.frames)| - 1]
              && ctx.names.printfCount == old(ctx.names.printfCount) + |BlockPrintFormats(s.block.statements)|
              && ctx.names.branchCount == old(ctx.names.branchCount) + BlockBranchLabels(s.block.statements)
              && StmtCode(s, Fn(|st0.functions|), st0, Snap(ctx), ctx.functionArguments)
  {
    ghost var trace, values;
    r, trace, values := LowerBlock(ctx, s.block);
    if r.Exited? {
      return;
    }
    ctx.PopBlock();
    FunctionStmtCode(s, st0, trace, values, Snap(ctx), ctx.functionArguments);
  }

  /**
   * A function entered as FunctionEntered says, whose body then ran through
   * every statement, and whose entry frame was popped after, has run as a
   * statement valued with the new function.
   */
  lemma FunctionStmtCode(s: Stmt, st0: Snapshot, trace: seq<Snapshot>, values: seq<Value>, st1: Snapshot,
                        args: map<string, Value>)
    requires s.FunctionDeclaration? && 1 <= |trace| && FunctionEntered(s, st0, trace[0])
    requires BlockTrace(s.block, trace, values, args) && |values| == |s.block.statements|
    requires 1 <= |trace[|trace| - 1].frames|
    requires st1 == trace[|trace| - 1].(frames := trace[|trace| - 1].frames[..|trace[|trace| - 1].frames| - 1])
    requires 1 <= |st0.frames| && st1.frames == st0.frames
    requires TopFrame(st0).block < |st0.blocks| <= |st1.blocks|
    ensures StmtCode(s, Fn(|st0.functions|), st0, st1, args)
  {
    var stE := trace[|trace| - 1];
    var top := stE.frames[|stE.frames| - 1];
    BlockRanByTrace(s.block, trace, values, args);
    assert stE == st1.(frames := st1.frames + [top]);
    assert FunctionRan(s, st0, trace[0], top, st1, args);
  }

  /**
   * BranchStatement::codeGen: lower the test in the current block, make
   * the "branch" block(s) in the same function, end the current block with
   * the conditional branch, then lower each arm in a frame of its own.
   * The value is null; lowering goes on in the block the branch left.
   */
  method LowerBranch(ctx: CodeGenContext, s: Stmt) returns (r: Completion)
    requires s.BranchStatement?
    requires ctx.Lowering()
    requires PrintsFit(ctx.names.printfCount, StmtPrintFormats(s))
    requires LabelsFit(ctx.names.branchCount, BranchLabels(s))
    modifies ctx`blocks, ctx`globals, ctx`globalIds, ctx`frames, ctx`functions, ctx.names
    decreases s, 2
    ensures ctx.Lowering()
    ensures StmtStep(ctx, old(ctx.blocks), old(ctx.functions), old(ctx.globals), old(ctx.Cur()),
                     old(ctx.names.printfCount), old(ctx.names.branchCount))
    ensures r.Normal? ==>
              && r.value == Null && ctx.frames == old(ctx.frames)
              && ctx.names.printfCount == old(ctx.names.printfCount) + |StmtPrintFormats(s)|
              && ctx.names.branchCount == old(ctx.names.branchCount) + BranchLabels(s)
              && BranchShape(s, old(ctx.blocks), old(ctx.Cur()), old(ctx.names.branchCount), ctx.blocks)
    ensures r.Normal? ==> StmtCode(s, r.value, old(Snap(ctx)), Snap(ctx), ctx.functionArguments)
  {
    BranchBudget(ctx.names.printfCount, s);
    var entry := ctx.Cur();
    var bTrue: nat, bFalse: Option<nat>;
    r, bTrue, bFalse := BeginBranch(ctx, s);
    if r.Exited? {
      return;
    }
    ghost var locals := ctx.Locals();
    ghost var b1 := ctx.blocks;
    r := LowerArms(ctx, s, bTrue, old(Snap(ctx)));
    ArmsKeepShape(s, old(ctx.blocks), entry, old(ctx.names.branchCount), b1, ctx.blocks);
  }

  /**
   * The arms of BranchStatement::codeGen: the true arm lowered into the
   * first new block, then the false arm, if there is one, into the second.
   */
  method LowerArms(ctx: CodeGenContext, s: Stmt, bTrue: nat, ghost st0: Snapshot) returns (r: Completion)
    requires s.BranchStatement? && ctx.Lowering()
    requires bTrue + (if s.hasFalseBranch then 2 else 1) <= |ctx.blocks|
    requires bTrue == |st0.blocks| && BranchOpened(s, st0, Snap(ctx), ctx.functionArguments)
    requires PrintsFit(ctx.names.printfCount, BlockPrintFormats(s.blockTrue.statements))
    requires s.hasFalseBranch ==>
               PrintsFit(ctx.names.printfCount + |BlockPrintFormats(s.blockTrue.statements)|,
                         BlockPrintFormats(s.blockFalse.statements))
    requires LabelsFit(ctx.names.branchCount, BlockBranchLabels(s.blockTrue.statements)
                         + (if s.hasFalseBranch then BlockBranchLabels(s.blockFalse.statements) else 0))
    modifies ctx`blocks, ctx`globals, ctx`globalIds, ctx`frames, ctx`functions, ctx.names
    decreases s, 1
    ensures ctx.Lowering()
    ensures ArmsGrew(old(ctx.blocks), ctx.blocks, bTrue, s.hasFalseBranch)
    ensures old(ctx.functions) <= ctx.functions && old(ctx.globals) <= ctx.globals
    ensures old(ctx.names.printfCount) <= ctx.names.printfCount && old(ctx.names.branchCount) <= ctx.names.branchCount
    ensures r.Normal? ==>
              && ctx.frames == old(ctx.frames)
              && ctx.names.printfCount == old(ctx.names.printfCount) + |BlockPrintFormats(s.blockTrue.statements)|
                   + (if s.hasFalseBranch then |BlockPrintFormats(s.blockFalse.statements)| else 0)
              && ctx.names.branchCount == old(ctx.names.branchCount) + BlockBranchLabels(s.blockTrue.statements)
                   + (if s.hasFalseBranch then BlockBranchLabels(s.blockFalse.statements) else 0)
    ensures r.Normal? ==> r.value == Null && StmtCode(s, Null, st0, Snap(ctx), ctx.functionArguments)
  {
    r := LowerArm(ctx, bTrue, s.blockTrue);
    if r.Exited? {
      return;
    }
    ghost var b1 := ctx.blocks;
    r := LowerElse(ctx, s, bTrue, st0, old(Snap(ctx)));
    if s.hasFalseBranch {
      GrewThenGrew(old(ctx.blocks), b1, ctx.blocks, bTrue);
    }
  }

  /**
   * The false arm, if there is one, lowered into the second new block,
   * after which the branch has run.
   */
  method LowerElse(ctx: CodeGenContext, s: Stmt, bTrue: nat, ghost st0: Snapshot, ghost stB: Snapshot)
    returns (r: Completion)
    requires s.BranchStatement? && ctx.Lowering()
    requires bTrue + (if s.hasFalseBranch then 2 else 1) <= |ctx.blocks|
    requires bTrue == |st0.blocks| && BranchOpened(s, st0, stB, ctx.functionArguments)
    requires ArmRan(s.blockTrue, bTrue, stB, Snap(ctx), ctx.functionArguments)
    requires ctx.frames == st0.frames
    requires s.hasFalseBranch ==>
               && PrintsFit(ctx.names.printfCount, BlockPrintFormats(s.blockFalse.statements))
               && LabelsFit(ctx.names.branchCount, BlockBranchLabels(s.blockFalse.statements))
    modifies ctx`blocks, ctx`globals, ctx`globalIds, ctx`frames, ctx`functions, ctx.names
    decreases s, 0
    ensures ctx.Lowering()
    ensures s.hasFalseBranch ==>
              StmtStep(ctx, old(ctx.blocks), old(ctx.functions), old(ctx.globals), bTrue + 1,
                       old(ctx.names.printfCount), old(ctx.names.branchCount))
    ensures !s.hasFalseBranch ==>
              && ctx.blocks == old(ctx.blocks) && ctx.functions == old(ctx.functions) && ctx.globals == old(ctx.globals)
              && ctx.names.printfCount == old(ctx.names.printfCount) && ctx.names.branchCount == old(ctx.names.branchCount)
    ensures r.Normal? ==>
              && ctx.frames == old(ctx.frames)
              && ctx.names.printfCount == old(ctx.names.printfCount)
                   + (if s.hasFalseBranch then |BlockPrintFormats(s.blockFalse.statements)| else 0)
              && ctx.names.branchCount == old(ctx.names.branchCount)
                   + (if s.hasFalseBranch then BlockBranchLabels(s.blockFalse.statements) else 0)
    ensures r.Normal? ==> r.value == Null && StmtCode(s, Null, st0, Snap(ctx), ctx.functionArguments)
  {
    r := Normal(Null);
    if s.hasFalseBranch {
      r := LowerArm(ctx, bTrue + 1, s.blockFalse);
      if r.Exited? {
        return;
      }
      r := Normal(Null);
    }
    BranchStmtCode(s, st0, stB, old(Snap(ctx)), Snap(ctx), ctx.functionArguments);
  }

  /**
   * Only the arm blocks of b0 (bTrue, and bTrue + 1 when there are two)
   * changed, each keeping its name and parent and growing its body.
   */
  ghost predicate ArmsGrew(b0: seq<BasicBlock>, b1: seq<BasicBlock>, bTrue: nat, two: bool)
  {
    && bTrue + (if two then 2 else 1) <= |b0| <= |b1|
    && (forall j :: 0 <= j < |b0| && j != bTrue && (two ==> j != bTrue + 1) ==> b1[j] == b0[j])
    && (forall j :: bTrue <= j < bTrue + (if two then 2 else 1) ==>
          b1[j].blockName == b0[j].blockName && b1[j].parent == b0[j].parent && b0[j].body <= b1[j].body)
  }

  /** An arm grown into block k, then one into k + 1, grew both arm blocks. */
  lemma GrewThenGrew(b0: seq<BasicBlock>, b1: seq<BasicBlock>, b2: seq<BasicBlock>, k: nat)
    requires Grew(b0, b1, k) && Grew(b1, b2, k + 1) && k + 2 <= |b0|
    ensures ArmsGrew(b0, b2, k, true)
  {
  }

  /** Lowering the arms keeps the branch's shape and leaves the block it started in as it was. */
  lemma ArmsKeepShape(s: Stmt, b0: seq<BasicBlock>, entry: nat, labels0: nat,
                      b1: seq<BasicBlock>, b2: seq<BasicBlock>)
    requires s.BranchStatement? && entry < |b0|
    requires Grew(b0, b1, entry) && BranchShape(s, b0, entry, labels0, b1)
    requires ArmsGrew(b1, b2, |b0|, s.hasFalseBranch)
    ensures Grew(b0, b2, entry) && BranchShape(s, b0, entry, labels0, b2)
  {
  }

  /**
   * The first half of BranchStatement::codeGen: the test, the new block(s)
   * and the conditional branch that ends the current block.
   */
  method BeginBranch(ctx: CodeGenContext, s: Stmt) returns (r: Completion, bTrue: nat, bFalse: Option<nat>)
    requires s.BranchStatement?
    requires ctx.Lowering() && PrintsFit(ctx.names.printfCount, PrintFormats(s.testExpression))
    requires LabelsFit(ctx.names.branchCount, if s.hasFalseBranch then 2 else 1)
    modifies ctx`blocks, ctx`globals, ctx`globalIds, ctx.names
    ensures ctx.Lowering()
    ensures Grew(old(ctx.blocks), ctx.blocks, ctx.Cur())
    ensures old(ctx.globals) <= ctx.globals && old(ctx.names.printfCount) <= ctx.names.printfCount
    ensures old(ctx.names.branchCount) <= ctx.names.branchCount
    ensures r.Normal? ==>
              && ctx.names.printfCount == old(ctx.names.printfCount) + |PrintFormats(s.testExpression)|
              && ctx.names.branchCount == old(ctx.names.branchCount) + (if s.hasFalseBranch then 2 else 1)
              && bTrue == |old(ctx.blocks)|
              && bFalse == (if s.hasFalseBranch then Some(bTrue + 1) else None)
              && |ctx.blocks| == |old(ctx.blocks)| + (if s.hasFalseBranch then 2 else 1)
              && ctx.blocks[bTrue].body == [] && (s.hasFalseBranch ==> ctx.blocks[bTrue + 1].body == [])
              && BranchShape(s, old(ctx.blocks), ctx.Cur(), old(ctx.names.branchCount), ctx.blocks)
    ensures r.Normal? ==> BranchOpened(s, old(Snap(ctx)), Snap(ctx), ctx.functionArguments)
  {
    bTrue, bFalse := 0, None;
    var entry := ctx.Cur();
    var t := LowerExpr(ctx, s.testExpression);
    if t.Exited? {
      return Exited, bTrue, bFalse;
    }
    ghost var lo, bt := |old(ctx.blocks[entry].body)|, ctx.blocks;
    bTrue, bFalse := OpenBranch(ctx, s, t.value, old(ctx.blocks));
    ghost var body := ctx.blocks[entry].body;
    assert body[lo..|body| - 1] == bt[entry].body[lo..];
    assert ScopeAt(old(Snap(ctx)), ctx.functionArguments) == ScopeOf(ctx);
    r := Normal(Null);
  }

  /**
   * The second half of BeginBranch, once the test's code grew the current
   * block of b0 and yielded `test`: the new block(s), then the conditional
   * branch on `test` at the end of the current block.
   */
  method OpenBranch(ctx: CodeGenContext, s: Stmt, test: Value, ghost b0: seq<BasicBlock>) returns (bTrue: nat, bFalse: Option<nat>)
    requires s.BranchStatement? && ctx.Lowering()
    requires LabelsFit(ctx.names.branchCount, if s.hasFalseBranch then 2 else 1)
    requires Grew(b0, ctx.blocks, ctx.Cur()) && |ctx.blocks| == |b0|
    requires StraightFrom(ctx.blocks[ctx.Cur()].body, |b0[ctx.Cur()].body|)
    modifies ctx`blocks, ctx.names
    ensures ctx.Lowering() && Grew(b0, ctx.blocks, ctx.Cur())
    ensures ctx.names.printfCount == old(ctx.names.printfCount)
    ensures ctx.names.branchCount == old(ctx.names.branchCount) + (if s.hasFalseBranch then 2 else 1)
    ensures bTrue == |b0| && bFalse == (if s.hasFalseBranch then Some(bTrue + 1) else None)
    ensures |ctx.blocks| == |b0| + (if s.hasFalseBranch then 2 else 1)
    ensures ctx.blocks[bTrue].body == [] && (s.hasFalseBranch ==> ctx.blocks[bTrue + 1].body == [])
    ensures BranchShape(s, b0, ctx.Cur(), old(ctx.names.branchCount), ctx.blocks)
    ensures ctx.blocks[ctx.Cur()].body == old(ctx.blocks[ctx.Cur()].body) + [CondBr(test, bTrue, bFalse)]
  {
    var entry := ctx.Cur();
    ghost var bt := ctx.blocks;
    bTrue, bFalse := NewBranchBlocks(ctx, ctx.blocks[entry].parent, s.hasFalseBranch);
    ghost var b1 := ctx.blocks;
    var _ := ctx.AppendTo(entry, CondBr(test, bTrue, bFalse));
    BranchShapeFrom(s, b0, bt, b1, ctx.blocks, entry, old(ctx.names.branchCount), test);
  }

  /** The "branch" block(s) of a branch, each named from the branch counter, in function `parent`. */
  method NewBranchBlocks(ctx: CodeGenContext, parent: nat, hasFalseBranch: bool) returns (bTrue: nat, bFalse: Option<nat>)
    requires ctx.Valid() && parent < |ctx.functions|
    requires LabelsFit(ctx.names.branchCount, if hasFalseBranch then 2 else 1)
    modifies ctx`blocks, ctx.names
    ensures ctx.Valid()
    ensures ctx.names.printfCount == old(ctx.names.printfCount)
    ensures ctx.names.branchCount == old(ctx.names.branchCount) + (if hasFalseBranch then 2 else 1)
    ensures bTrue == |old(ctx.blocks)|
    ensures bFalse == (if hasFalseBranch then Some(bTrue + 1) else None)
    ensures ctx.blocks == old(ctx.blocks) + [BasicBlock(BranchName(old(ctx.names.branchCount)), parent, [])]
              + (if hasFalseBranch then [BasicBlock(BranchName(old(ctx.names.branchCount) + 1), parent, [])] else [])
  {
    var trueName := ctx.names.BranchUniqueName();
    bTrue := ctx.NewBlock(trueName, parent);
    bFalse := None;
    if hasFalseBranch {
      var falseName := ctx.names.BranchUniqueName();
      var k := ctx.NewBlock(falseName, parent);
      bFalse := Some(k);
    }
  }

  /** One arm of a branch: its block lowered in a new frame on `block`, which is popped after. */
  method LowerArm(ctx: CodeGenContext, block: nat, arm: StatementBlock) returns (r: Completion)
    requires ctx.Lowering() && block < |ctx.blocks|
    requires PrintsFit(ctx.names.printfCount, BlockPrintFormats(arm.statements))
    requires LabelsFit(ctx.names.branchCount, BlockBranchLabels(arm.statements))
    modifies ctx`blocks, ctx`globals, ctx`globalIds, ctx`frames, ctx`functions, ctx.names
    decreases arm, 2
    ensures ctx.Lowering()
    ensures StmtStep(ctx, old(ctx.blocks), old(ctx.functions), old(ctx.globals), block,
                     old(ctx.names.printfCount), old(ctx.names.branchCount))
    ensures r.Normal? ==>
              && ctx.frames == old(ctx.frames)
              && ctx.names.printfCount == old(ctx.names.printfCount) + |BlockPrintFormats(arm.statements)|
              && ctx.names.branchCount == old(ctx.names.branchCount) + BlockBranchLabels(arm.statements)
    ensures r.Normal? ==> ArmRan(arm, block, old(Snap(ctx)), Snap(ctx), ctx.functionArguments)
  {
    ctx.PushBlock(block);
    ghost var trace, values;
    r, trace, values := LowerBlock(ctx, arm);
    if r.Exited? {
      return;
    }
    BlockRanByTrace(arm, trace, values, ctx.functionArguments);
    ghost var top := ctx.frames[|ctx.frames| - 1];
    ghost var stE := Snap(ctx);
    ctx.PopBlock();
    assert stE.frames == ctx.frames + [top];
    assert stE == Snap(ctx).(frames := ctx.frames + [top]);
  }

  /**
   * What a branch leaves behind in `blocks`: the block it started in
   * gained straight-line code (the test's, as BranchOpened says) and then
   * the conditional branch, whose targets are the next blocks created,
   * named from the branch counter and placed in the same function.
   */
  ghost predicate BranchShape(s: Stmt, b0: seq<BasicBlock>, entry: nat, labels0: nat, blocks: seq<BasicBlock>)
    requires s.BranchStatement? && entry < |b0|
  {
    var n0 := |b0|;
    && n0 + (if s.hasFalseBranch then 2 else 1) <= |blocks|
    && var body := blocks[entry].body;
    && |b0[entry].body| < |body|
    && b0[entry].body <= body[..|body| - 1]
    && StraightFrom(body[..|body| - 1], |b0[entry].body|)
    && body[|body| - 1].CondBr?
    && body[|body| - 1].trueBlock == n0
    && body[|body| - 1].falseBlock == (if s.hasFalseBranch then Some(n0 + 1) else None)
    && blocks[n0].blockName == BranchName(labels0)
    && blocks[n0].parent == b0[entry].parent
    && (s.hasFalseBranch ==>
          blocks[n0 + 1].blockName == BranchName(labels0 + 1)
          && blocks[n0 + 1].parent == b0[entry].parent)
  }

  /**
   * The test's code grew block `entry` of b0 into bt, the branch's new
   * block(s) followed, and the conditional branch closed `entry`: that is
   * the shape of a branch.
   */
  lemma BranchShapeFrom(s: Stmt, b0: seq<BasicBlock>, bt: seq<BasicBlock>, b1: seq<BasicBlock>, blocks: seq<BasicBlock>,
                        entry: nat, labels0: nat, test: Value)
    requires s.BranchStatement? && entry < |b0|
    requires Grew(b0, bt, entry) && |bt| == |b0| && StraightFrom(bt[entry].body, |b0[entry].body|)
    requires b1 == bt + [BasicBlock(BranchName(labels0), bt[entry].parent, [])]
                 + (if s.hasFalseBranch then [BasicBlock(BranchName(labels0 + 1), bt[entry].parent, [])] else [])
    requires blocks == Appended(b1, entry, CondBr(test, |b0|, if s.hasFalseBranch then Some(|b0| + 1) else None))
    ensures BranchShape(s, b0, entry, labels0, blocks)
    ensures Grew(b0, blocks, entry) && |blocks| == |b0| + (if s.hasFalseBranch then 2 else 1)
    ensures blocks[|b0|].body == [] && (s.hasFalseBranch ==> blocks[|b0| + 1].body == [])
  {
    var body := blocks[entry].body;
    assert b1[entry] == bt[entry];
    assert body[..|body| - 1] == bt[entry].body;
    assert Grew(bt, b1, entry);
    assert Grew(b1, blocks, entry);
    GrewTransitive(b0, bt, b1, entry);
    GrewTransitive(b0, b1, blocks, entry);
  }

  /** Lowering an arm into one of the branch's blocks keeps that shape. */
  lemma BranchShapeKept(s: Stmt, b0: seq<BasicBlock>, entry: nat, labels0: nat,
                        b1: seq<BasicBlock>, b2: seq<BasicBlock>, arm: nat)
    requires s.BranchStatement? && entry < |b0|
    requires BranchShape(s, b0, entry, labels0, b1) && Grew(b1, b2, arm) && arm != entry
    ensures BranchShape(s, b0, entry, labels0, b2)
  {
  }

  /** A branch adds exactly one conditional branch to the block it started in. */
  lemma BranchAddsOneCondBr(s: Stmt, b0: seq<BasicBlock>, entry: nat, labels0: nat,
                            blocks: seq<BasicBlock>)
    requires s.BranchStatement? && entry < |b0|
    requires BranchShape(s, b0, entry, labels0, blocks)
    ensures CountCondBr(blocks[entry].body) == CountCondBr(b0[entry].body) + 1
  {
    var body := blocks[entry].body;
    CountCondBrStraight(b0[entry].body, body[..|body| - 1]);
  }

  /**
   * A branch built by the two-argument constructor: its conditional branch
   * has the one new block as true target and no false target, and it takes
   * one label besides those of its arm.
   */
  lemma BranchWithoutElseShape(test: Expr, arm: StatementBlock, b0: seq<BasicBlock>, entry: nat, labels0: nat,
                               blocks: seq<BasicBlock>)
    requires entry < |b0|
    requires BranchShape(BranchWithoutElse(test, arm), b0, entry, labels0, blocks)
    ensures var body := blocks[entry].body;
            1 <= |body| && body[|body| - 1] == CondBr(body[|body| - 1].test, |b0|, None)
    ensures blocks[|b0|].blockName == BranchName(labels0)
    ensures BranchLabels(BranchWithoutElse(test, arm)) == 1 + BlockBranchLabels(arm.statements)
  {
  }

  /**
   * A branch built by the three-argument constructor: its conditional
   * branch targets the two new blocks, named from consecutive counter
   * values, and it takes two labels besides those of its arms.
   */
  lemma BranchWithElseShape(test: Expr, armTrue: StatementBlock, armFalse: StatementBlock, b0: seq<BasicBlock>,
                            entry: nat, labels0: nat, blocks: seq<BasicBlock>)
    requires entry < |b0|
    requires BranchShape(BranchWithElse(test, armTrue, armFalse), b0, entry, labels0, blocks)
    ensures var body := blocks[entry].body;
            1 <= |body| && body[|body| - 1] == CondBr(body[|body| - 1].test, |b0|, Some(|b0| + 1))
    ensures blocks[|b0|].blockName == BranchName(labels0) && blocks[|b0| + 1].blockName == BranchName(labels0 + 1)
    ensures BranchLabels(BranchWithElse(test, armTrue, armFalse))
            == 2 + BlockBranchLabels(armTrue.statements) + BlockBranchLabels(armFalse.statements)
  {
  }
}
