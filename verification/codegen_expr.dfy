/**
 * Expression lowering: the codeGen implementations of Integer, Double,
 * Identifier, MethodCall, PrintfMethodCall, BinaryOperation and
 * Assignment. Each appends instructions to the current block of the
 * context and yields a value handle (Null where the source returns NULL),
 * or Exited where the source calls exit(-1).
 */
module ExprCodeGen {
  import opened Wrappers
  import opened Ast
  import opened Ir
  import opened Context
  import opened NameBudget
  import FormatString

  /**
   * The value an expression lowers to when it is fixed without emitting
   * anything: a literal constant, a parameter binding, the null of an
   * unresolved name, or the null of an operation with an unknown token.
   */
  function KnownValue(e: Expr, arguments: map<string, Value>, locals: map<string, Value>): Option<Value>
  {
    match e
    case Integer(v) => Some(ConstInt(v))
    case Double(d) => Some(ConstDouble(d))
    case Identifier(name) =>
      if name in arguments then Some(arguments[name])
      else if name !in locals then Some(Null)
      else None
    case BinaryOperation(op, _, _) => if op.OtherToken? then Some(Null) else None
    case _ => None
  }

  /** An Assignment occurs in `e`: the only expression whose lowering can call exit(-1). */
  predicate HasAssignment(e: Expr)
    decreases e
  {
    match e
    case BinaryOperation(_, lhs, rhs) => HasAssignment(lhs) || HasAssignment(rhs)
    case MethodCall(_, args) => exists k :: 0 <= k < |args| && HasAssignment(args[k])
    case PrintfMethodCall(_, args) => exists k :: 0 <= k < |args| && HasAssignment(args[k])
    case Assignment(_, _) => true
    case _ => false
  }

  /**
   * `v` is what expression `e` yields when its code fills positions lo up
   * to hi - 1 of block k: its known value, with nothing emitted, or else the
   * handle of the last instruction it appended.
   */
  ghost predicate Yields(e: Expr, v: Value, k: nat, lo: nat, hi: nat, arguments: map<string, Value>, locals: map<string, Value>)
  {
    match KnownValue(e, arguments, locals)
    case Some(x) => v == x && lo == hi
    case None => lo < hi && v == Inst(k, hi - 1)
  }

  /**
   * The instruction BinaryOperation builds for each token it recognises: an
   * integer arithmetic instruction, or an integer compare on the operands.
   */
  function OperationFor(op: BinaryOp, l: Value, r: Value): (i: Instr)
    requires !op.OtherToken?
    ensures !IsControl(i) && (i.BinOp? || i.ICmp?)
  {
    match op
    case Plus => BinOp(Add, l, r)
    case Minus => BinOp(Sub, l, r)
    case Mul => BinOp(ArithOp.Mul, l, r)
    case Div => BinOp(SDiv, l, r)
    case CmpEq => ICmp(Eq, l, r)
    case CmpNe => ICmp(Ne, l, r)
    case CmpLt => ICmp(Slt, l, r)
    case CmpGt => ICmp(Sgt, l, r)
    case CmpLe => ICmp(Sle, l, r)
    case CmpGe => ICmp(Sge, l, r)
  }

  /** The two operands of an arithmetic or comparison instruction. */
  function Operands(i: Instr): (Value, Value)
  {
    match i
    case BinOp(_, l, r) => (l, r)
    case ICmp(_, l, r) => (l, r)
    case _ => (Null, Null)
  }

  /**
   * Arithmetic tokens give the integer instruction of the same name (signed
   * division for Div), comparisons the signed compare of the same relation;
   * no two tokens give the same instruction.
   */
  lemma OperationForShape(op: BinaryOp, op': BinaryOp, l: Value, r: Value)
    requires !op.OtherToken? && !op'.OtherToken?
    ensures Operands(OperationFor(op, l, r)) == (l, r)
    ensures OperationFor(op, l, r).BinOp? <==> op in {Plus, Minus, BinaryOp.Mul, Div}
    ensures OperationFor(op, l, r).ICmp? <==> op in {CmpEq, CmpNe, CmpLt, CmpGt, CmpLe, CmpGe}
    ensures op == Plus <==> OperationFor(op, l, r) == BinOp(Add, l, r)
    ensures op == Minus <==> OperationFor(op, l, r) == BinOp(Sub, l, r)
    ensures op == BinaryOp.Mul <==> OperationFor(op, l, r) == BinOp(ArithOp.Mul, l, r)
    ensures op == Div <==> OperationFor(op, l, r) == BinOp(SDiv, l, r)
    ensures op == CmpEq <==> OperationFor(op, l, r) == ICmp(Eq, l, r)
    ensures op == CmpNe <==> OperationFor(op, l, r) == ICmp(Ne, l, r)
    ensures op == CmpLt <==> OperationFor(op, l, r) == ICmp(Slt, l, r)
    ensures op == CmpGt <==> OperationFor(op, l, r) == ICmp(Sgt, l, r)
    ensures op == CmpLe <==> OperationFor(op, l, r) == ICmp(Sle, l, r)
    ensures op == CmpGe <==> OperationFor(op, l, r) == ICmp(Sge, l, r)
    ensures OperationFor(op, l, r) == OperationFor(op', l, r) ==> op == op'
  {
  }

  /** The callee MethodCall resolves: the module's function of that name, or null. */
  function Callee(fs: seq<Function>, name: string): (v: Value)
    ensures v == Null || v.Fn?
    ensures v.Fn? ==> v.fnIndex < |fs| && fs[v.fnIndex].name == name
    ensures v.Fn? ==> forall j :: 0 <= j < v.fnIndex ==> fs[j].name != name
    ensures v == Null <==> forall j :: 0 <= j < |fs| ==> fs[j].name != name
  {
    match FindFunction(fs, name)
    case None => Null
    case Some(k) => Fn(k)
  }

  /**
   * What an expression's code depends on and never changes: the block it
   * goes into, the module's functions, the printf declaration, the
   * parameter table and the locals of the top frame.
   */
  datatype Scope = Scope(block: nat, functions: seq<Function>, printf: Value,
                         arguments: map<string, Value>, locals: map<string, Value>)

  ghost function ScopeOf(ctx: CodeGenContext): Scope
    reads ctx`frames, ctx`functions, ctx`printfFunction
    requires 1 <= |ctx.frames|
  {
    Scope(ctx.Cur(), ctx.functions, ctx.printfFunction, ctx.functionArguments, ctx.Locals())
  }

  /**
   * How many instructions lowering e appends: one load per local read and
   * one instruction per known operation, call and assignment.
   */
  function CodeLen(e: Expr, sc: Scope): nat
    decreases e
  {
    match e
    case Identifier(name) => if name !in sc.arguments && name in sc.locals then 1 else 0
    case BinaryOperation(op, lhs, rhs) => if op.OtherToken? then 0 else CodeLen(lhs, sc) + CodeLen(rhs, sc) + 1
    case MethodCall(_, args) => CodeLenOf(args, sc) + 1
    case PrintfMethodCall(_, args) => CodeLenOf(args, sc) + 1
    case Assignment(_, rhs) => CodeLen(rhs, sc) + 1
    case _ => 0
  }

  function CodeLenOf(es: seq<Expr>, sc: Scope): nat
    decreases es
  {
    if es == [] then 0 else CodeLenOf(es[..|es| - 1], sc) + CodeLen(es[|es| - 1], sc)
  }

  /** The global PrintfMethodCall interns: the rewritten text, NUL-terminated, named from counter value p. */
  function Interned(format: string, p: nat): Global
    requires 3 <= |format|
  {
    var text := FormatString.Processed(format);
    Global(PrintName(p), |text| + 1, CStringInit(text))
  }

  /**
   * Expression e, lowered in scope sc from position lo of its block,
   * appended exactly `code` there and added exactly the globals gs (the
   * first at index g0, named from counter value p0), and yields v. Per
   * kind: a constant, a parameter or an unresolved name emits nothing and
   * yields its value; a local read is one load of its slot; a known
   * operation is its operands' code, in either order, then its instruction
   * on their values; a call is its arguments' code in list order, then the
   * call of Callee on their values; a print call first interns its format,
   * then calls printf on that global and its arguments' values; an
   * assignment to a local is the right-hand side's code, then the store of
   * its value into the slot. Whatever emits code yields its last
   * instruction.
   */
  ghost predicate ExprRan(e: Expr, v: Value, sc: Scope, lo: nat, code: seq<Instr>, g0: nat, gs: seq<Global>, p0: nat)
    decreases e, 2
  {
    && |code| == CodeLen(e, sc) && |gs| == |PrintFormats(e)|
    && match e
       case Integer(x) => v == ConstInt(x)
       case Double(d) => v == ConstDouble(d)
       case Identifier(name) =>
         if name in sc.arguments then v == sc.arguments[name]
         else if name !in sc.locals then v == Null
         else code == [Load(sc.locals[name])] && v == Inst(sc.block, lo)
       case BinaryOperation(op, _, _) => if op.OtherToken? then v == Null else OperationEmitted(e, v, sc, lo, code, g0, gs, p0)
       case MethodCall(_, _) => CallEmitted(e, v, sc, lo, code, g0, gs, p0)
       case PrintfMethodCall(_, _) => PrintEmitted(e, v, sc, lo, code, g0, gs, p0)
       case Assignment(_, _) => StoreEmitted(e, v, sc, lo, code, g0, gs, p0)
  }

  /** A known operation's code: its operands' code, in either order, then its instruction on their values. */
  ghost predicate OperationEmitted(e: Expr, v: Value, sc: Scope, lo: nat, code: seq<Instr>, g0: nat, gs: seq<Global>, p0: nat)
    requires e.BinaryOperation? && !e.op.OtherToken?
    decreases e, 1
  {
    var n := |code| - 1;
    && 0 <= n
    && var l, r := Operands(code[n]).0, Operands(code[n]).1;
    && v == Inst(sc.block, lo + n) && code[n] == OperationFor(e.op, l, r)
    && (OperandsRan(e, false, l, r, sc, lo, code[..n], g0, gs, p0) || OperandsRan(e, true, l, r, sc, lo, code[..n], g0, gs, p0))
  }

  /** A call's code: its arguments' code in list order, then the call of Callee on their values. */
  ghost predicate CallEmitted(e: Expr, v: Value, sc: Scope, lo: nat, code: seq<Instr>, g0: nat, gs: seq<Global>, p0: nat)
    requires e.MethodCall?
    decreases e, 1
  {
    var n := |code| - 1;
    && 0 <= n
    && v == Inst(sc.block, lo + n)
    && code[n].Call? && code[n].callee == Callee(sc.functions, e.methodName)
    && ArgsRan(e.arguments, code[n].args, sc, lo, code[..n], g0, gs, p0)
  }

  /**
   * A print call's code: its format interned first as global g0, then its
   * arguments' code, then the call of printf on that global's first byte
   * and the arguments' values.
   */
  ghost predicate PrintEmitted(e: Expr, v: Value, sc: Scope, lo: nat, code: seq<Instr>, g0: nat, gs: seq<Global>, p0: nat)
    requires e.PrintfMethodCall?
    decreases e, 1
  {
    var n := |code| - 1;
    && 0 <= n && 1 <= |gs|
    && 3 <= |e.format| && gs[0] == Interned(e.format, p0)
    && v == Inst(sc.block, lo + n)
    && code[n].Call? && code[n].callee == sc.printf
    && 1 <= |code[n].args| && code[n].args[0] == GlobalStart(g0)
    && ArgsRan(e.printArguments, code[n].args[1..], sc, lo, code[..n], g0 + 1, gs[1..], p0 + 1)
  }

  /** An assignment's code: the right-hand side's code, then the store of its value into the local target's slot. */
  ghost predicate StoreEmitted(e: Expr, v: Value, sc: Scope, lo: nat, code: seq<Instr>, g0: nat, gs: seq<Global>, p0: nat)
    requires e.Assignment?
    decreases e, 1
  {
    var n := |code| - 1;
    && 0 <= n
    && e.target in sc.locals
    && v == Inst(sc.block, lo + n)
    && code[n].Store? && code[n].target == sc.locals[e.target]
    && ExprRan(e.rhs, code[n].stored, sc, lo, code[..n], g0, gs, p0)
  }

  /**
   * The arguments args, lowered one after the other from position lo,
   * appended exactly `code` and added exactly the globals gs, argument j
   * yielding vs[j].
   */
  ghost predicate ArgsRan(args: seq<Expr>, vs: seq<Value>, sc: Scope, lo: nat, code: seq<Instr>, g0: nat, gs: seq<Global>, p0: nat)
    decreases args, 3
  {
    && |vs| == |args| && |code| == CodeLenOf(args, sc) && |gs| == |PrintFormatsOf(args)|
    && (args != [] ==>
          var n := |args| - 1;
          var c, m := CodeLenOf(args[..n], sc), |PrintFormatsOf(args[..n])|;
          && ArgsRan(args[..n], vs[..n], sc, lo, code[..c], g0, gs[..m], p0)
          && ExprRan(args[n], vs[n], sc, lo + c, code[c..], g0 + m, gs[m..], p0 + m))
  }

  /**
   * The operands of binary operation e ran one after the other into code
   * and gs, yielding l and r: the right one first when rhsFirst, else the
   * left one.
   */
  ghost predicate OperandsRan(e: Expr, rhsFirst: bool, l: Value, r: Value, sc: Scope, lo: nat, code: seq<Instr>,
                              g0: nat, gs: seq<Global>, p0: nat)
    requires e.BinaryOperation?
    decreases e, 0
  {
    if rhsFirst then
      var n, m := CodeLen(e.rhs, sc), |PrintFormats(e.rhs)|;
      && n <= |code| && m <= |gs|
      && ExprRan(e.rhs, r, sc, lo, code[..n], g0, gs[..m], p0)
      && ExprRan(e.lhs, l, sc, lo + n, code[n..], g0 + m, gs[m..], p0 + m)
    else
      var n, m := CodeLen(e.lhs, sc), |PrintFormats(e.lhs)|;
      && n <= |code| && m <= |gs|
      && ExprRan(e.lhs, l, sc, lo, code[..n], g0, gs[..m], p0)
      && ExprRan(e.rhs, r, sc, lo + n, code[n..], g0 + m, gs[m..], p0 + m)
  }

  /**
   * A run of an expression yields what Yields says: its known value with
   * no code, or else the handle of the last of a non-empty stretch.
   */
  lemma ExprRanYields(e: Expr, v: Value, sc: Scope, lo: nat, code: seq<Instr>, g0: nat, gs: seq<Global>, p0: nat)
    requires ExprRan(e, v, sc, lo, code, g0, gs, p0)
    ensures Yields(e, v, sc.block, lo, lo + |code|, sc.arguments, sc.locals)
  {
  }

  /**
   * Since position lo of the current block, global index g0 and print
   * counter p0, the code and globals added are a run of e yielding v.
   */
  ghost predicate RanSince(ctx: CodeGenContext, e: Expr, v: Value, lo: nat, g0: nat, p0: nat)
    reads ctx`frames, ctx`blocks, ctx`functions, ctx`globals, ctx`printfFunction
    requires 1 <= |ctx.frames| && ctx.Cur() < |ctx.blocks|
  {
    && lo <= |ctx.blocks[ctx.Cur()].body| && g0 <= |ctx.globals|
    && ExprRan(e, v, ScopeOf(ctx), lo, ctx.blocks[ctx.Cur()].body[lo..], g0, ctx.globals[g0..], p0)
  }

  /**
   * The effect every expression has on the context: only the current
   * block grows, by straight-line code; globals may be added; no branch
   * names are taken. Frames and functions are outside the frame of the
   * expression methods and so stay as they are.
   */
  ghost predicate ExprStep(ctx: CodeGenContext, b0: seq<BasicBlock>, g0: seq<Global>, prints0: nat, labels0: nat)
    reads ctx`frames, ctx`blocks, ctx`globals, ctx.names
    requires 1 <= |ctx.frames|
  {
    && Grew(b0, ctx.blocks, ctx.Cur()) && |ctx.blocks| == |b0|
    && StraightFrom(ctx.blocks[ctx.Cur()].body, |b0[ctx.Cur()].body|)
    && g0 <= ctx.globals
    && prints0 <= ctx.names.printfCount && ctx.names.branchCount == labels0
  }

  /** Appending an instruction that is not a terminator is such a step. */
  lemma AppendStep(b0: seq<BasicBlock>, k: nat, i: Instr)
    requires k < |b0| && !IsControl(i)
    ensures Grew(b0, Appended(b0, k, i), k) && StraightFrom(Appended(b0, k, i)[k].body, |b0[k].body|)
  {
  }

  lemma ExprStepTransitive(ctx: CodeGenContext, b0: seq<BasicBlock>, b1: seq<BasicBlock>, g0: seq<Global>, g1: seq<Global>, prints0: nat, prints1: nat, labels0: nat)
    requires 1 <= |ctx.frames|
    requires Grew(b0, b1, ctx.Cur()) && |b1| == |b0| && StraightFrom(b1[ctx.Cur()].body, |b0[ctx.Cur()].body|)
    requires g0 <= g1 && prints0 <= prints1
    requires ExprStep(ctx, b1, g1, prints1, labels0)
    ensures ExprStep(ctx, b0, g0, prints0, labels0)
  {
    var k := ctx.Cur();
    var body0, body1, body2 := b0[k].body, b1[k].body, ctx.blocks[k].body;
    forall j | |body0| <= j < |body2|
      ensures !IsControl(body2[j])
    {
      if j < |body1| {
        assert body2[j] == body1[j];
      }
    }
  }

  /** A run of the first i arguments followed by a run of argument i is a run of the first i + 1. */
  lemma ArgsRanExtend(args: seq<Expr>, i: nat, values: seq<Value>, v: Value, sc: Scope, lo: nat,
                      body1: seq<Instr>, body2: seq<Instr>, g0: nat, globals1: seq<Global>, globals2: seq<Global>, p0: nat)
    requires i < |args| && lo <= |body1| && body1 <= body2 && g0 <= |globals1| && globals1 <= globals2
    requires ArgsRan(args[..i], values, sc, lo, body1[lo..], g0, globals1[g0..], p0)
    requires ExprRan(args[i], v, sc, |body1|, body2[|body1|..], |globals1|, globals2[|globals1|..], p0 + (|globals1| - g0))
    ensures ArgsRan(args[..i + 1], values + [v], sc, lo, body2[lo..], g0, globals2[g0..], p0)
  {
    var pre, vs := args[..i + 1], values + [v];
    assert pre[..i] == args[..i] && pre[i] == args[i];
    assert vs[..i] == values && vs[i] == v;
    var code, gs := body2[lo..], globals2[g0..];
    var c, m := CodeLenOf(args[..i], sc), |PrintFormatsOf(args[..i])|;
    assert code[..c] == body1[lo..] && code[c..] == body2[|body1|..];
    assert gs[..m] == globals1[g0..] && gs[m..] == globals2[|globals1|..];
  }

  /** Arguments that ran, then the call of the named function on their values, is a run of the call. */
  lemma MethodCallRan(e: Expr, values: seq<Value>, sc: Scope, lo: nat, body1: seq<Instr>, body2: seq<Instr>,
                      g0: nat, globals: seq<Global>, p0: nat)
    requires e.MethodCall? && lo <= |body1| && g0 <= |globals|
    requires ArgsRan(e.arguments, values, sc, lo, body1[lo..], g0, globals[g0..], p0)
    requires body2 == body1 + [Call(Callee(sc.functions, e.methodName), values)]
    ensures ExprRan(e, Inst(sc.block, |body1|), sc, lo, body2[lo..], g0, globals[g0..], p0)
  {
    var code := body2[lo..];
    assert code[..|code| - 1] == body1[lo..] && code[|code| - 1] == body2[|body1|];
  }

  /**
   * The interned format at g0, arguments that ran after it, then the call
   * of printf on the format's first byte and their values, is a run of
   * the print call.
   */
  lemma PrintfCallRan(e: Expr, values: seq<Value>, sc: Scope, lo: nat, body1: seq<Instr>, body2: seq<Instr>,
                      g0: nat, globals: seq<Global>, p0: nat)
    requires e.PrintfMethodCall? && 3 <= |e.format|
    requires lo <= |body1| && g0 < |globals| && globals[g0] == Interned(e.format, p0)
    requires ArgsRan(e.printArguments, values, sc, lo, body1[lo..], g0 + 1, globals[g0 + 1..], p0 + 1)
    requires body2 == body1 + [Call(sc.printf, [GlobalStart(g0)] + values)]
    ensures ExprRan(e, Inst(sc.block, |body1|), sc, lo, body2[lo..], g0, globals[g0..], p0)
  {
    var call := body2[|body2| - 1];
    assert call.args[0] == GlobalStart(g0) && call.args[1..] == values;
    var code := body2[lo..];
    assert code[..|code| - 1] == body1[lo..] && code[|code| - 1] == body2[|body1|];
    assert globals[g0..][1..] == globals[g0 + 1..];
  }

  /** A right-hand side that ran, then the store of its value into the target's slot, is a run of the assignment. */
  lemma AssignmentRan(target: string, rhs: Expr, v: Value, sc: Scope, lo: nat, body1: seq<Instr>, body2: seq<Instr>,
                      g0: nat, globals: seq<Global>, p0: nat)
    requires target in sc.locals && lo <= |body1| && g0 <= |globals|
    requires ExprRan(rhs, v, sc, lo, body1[lo..], g0, globals[g0..], p0)
    requires body2 == body1 + [Store(v, sc.locals[target])]
    ensures ExprRan(Assignment(target, rhs), Inst(sc.block, |body1|), sc, lo, body2[lo..], g0, globals[g0..], p0)
  {
    ExprRanSize(rhs, v, sc, lo, body1[lo..], g0, globals[g0..], p0);
    var code := body2[lo..];
    assert code[..|code| - 1] == body1[lo..] && code[|code| - 1] == body2[|body1|];
  }

  /** The run of an assignment ends with the store into the target's slot, and yields that store. */
  lemma AssignmentStores(target: string, rhs: Expr, v: Value, sc: Scope, lo: nat, code: seq<Instr>,
                         g0: nat, gs: seq<Global>, p0: nat)
    requires ExprRan(Assignment(target, rhs), v, sc, lo, code, g0, gs, p0)
    ensures 1 <= |code| && target in sc.locals && v == Inst(sc.block, lo + |code| - 1)
    ensures code[|code| - 1].Store? && code[|code| - 1].target == sc.locals[target]
  {
  }

  /** A run of e fills exactly its code length and its globals. */
  lemma ExprRanSize(e: Expr, v: Value, sc: Scope, lo: nat, code: seq<Instr>, g0: nat, gs: seq<Global>, p0: nat)
    requires ExprRan(e, v, sc, lo, code, g0, gs, p0)
    ensures |code| == CodeLen(e, sc) && |gs| == |PrintFormats(e)|
  {
  }

  /** The left operand's run, then the right one's right after it, is a left-first run of the operands. */
  lemma OperandsRanLeftFirst(e: Expr, l: Value, r: Value, sc: Scope, lo: nat, body1: seq<Instr>, body2: seq<Instr>,
                             g0: nat, globals1: seq<Global>, globals2: seq<Global>, p0: nat)
    requires e.BinaryOperation?
    requires lo <= |body1| && body1 <= body2 && g0 <= |globals1| && globals1 <= globals2
    requires ExprRan(e.lhs, l, sc, lo, body1[lo..], g0, globals1[g0..], p0)
    requires ExprRan(e.rhs, r, sc, |body1|, body2[|body1|..], |globals1|, globals2[|globals1|..], p0 + (|globals1| - g0))
    ensures OperandsRan(e, false, l, r, sc, lo, body2[lo..], g0, globals2[g0..], p0)
  {
    ExprRanSize(e.lhs, l, sc, lo, body1[lo..], g0, globals1[g0..], p0);
    StretchSplits(body1, body2, lo);
    StretchSplits(globals1, globals2, g0);
    OperandsJoin(e, false, l, r, sc, lo, |body1|, body2[lo..], body1[lo..], body2[|body1|..],
                 g0, |globals1|, globals2[g0..], globals1[g0..], globals2[|globals1|..], p0, p0 + (|globals1| - g0));
  }

  /** The right operand's run, then the left one's right after it, is a right-first run of the operands. */
  lemma OperandsRanRightFirst(e: Expr, l: Value, r: Value, sc: Scope, lo: nat, body1: seq<Instr>, body2: seq<Instr>,
                              g0: nat, globals1: seq<Global>, globals2: seq<Global>, p0: nat)
    requires e.BinaryOperation?
    requires lo <= |body1| && body1 <= body2 && g0 <= |globals1| && globals1 <= globals2
    requires ExprRan(e.rhs, r, sc, lo, body1[lo..], g0, globals1[g0..], p0)
    requires ExprRan(e.lhs, l, sc, |body1|, body2[|body1|..], |globals1|, globals2[|globals1|..], p0 + (|globals1| - g0))
    ensures OperandsRan(e, true, l, r, sc, lo, body2[lo..], g0, globals2[g0..], p0)
  {
    ExprRanSize(e.rhs, r, sc, lo, body1[lo..], g0, globals1[g0..], p0);
    StretchSplits(body1, body2, lo);
    StretchSplits(globals1, globals2, g0);
    OperandsJoin(e, true, l, r, sc, lo, |body1|, body2[lo..], body1[lo..], body2[|body1|..],
                 g0, |globals1|, globals2[g0..], globals1[g0..], globals2[|globals1|..], p0, p0 + (|globals1| - g0));
  }

  /** A stretch from lo that extends s1 to s2 splits where s1 ends. */
  lemma StretchSplits<T>(s1: seq<T>, s2: seq<T>, lo: nat)
    requires lo <= |s1| && s1 <= s2
    ensures |s1[lo..]| == |s1| - lo <= |s2[lo..]|
    ensures s2[lo..][..|s1[lo..]|] == s1[lo..] && s2[lo..][|s1[lo..]|..] == s2[|s1|..]
  {
  }

  /**
   * Two adjacent runs of the operands, the right one first when rhsFirst,
   * stretch c1 then c2 of code and gs1 then gs2 of gs, are a run of the
   * operands over code and gs.
   */
  lemma OperandsJoin(e: Expr, rhsFirst: bool, l: Value, r: Value, sc: Scope, lo: nat, mid: nat,
                     code: seq<Instr>, c1: seq<Instr>, c2: seq<Instr>, g0: nat, gmid: nat,
                     gs: seq<Global>, gs1: seq<Global>, gs2: seq<Global>, p0: nat, pmid: nat)
    requires e.BinaryOperation?
    requires |c1| <= |code| && code[..|c1|] == c1 && code[|c1|..] == c2 && mid == lo + |c1|
    requires |gs1| <= |gs| && gs[..|gs1|] == gs1 && gs[|gs1|..] == gs2 && gmid == g0 + |gs1| && pmid == p0 + |gs1|
    requires rhsFirst ==> |c1| == CodeLen(e.rhs, sc) && |gs1| == |PrintFormats(e.rhs)|
    requires !rhsFirst ==> |c1| == CodeLen(e.lhs, sc) && |gs1| == |PrintFormats(e.lhs)|
    requires ExprRan(if rhsFirst then e.rhs else e.lhs, if rhsFirst then r else l, sc, lo, c1, g0, gs1, p0)
    requires ExprRan(if rhsFirst then e.lhs else e.rhs, if rhsFirst then l else r, sc, mid, c2, gmid, gs2, pmid)
    ensures OperandsRan(e, rhsFirst, l, r, sc, lo, code, g0, gs, p0)
  {
  }

  /** Operands that ran fill exactly the code and globals of both. */
  lemma OperandsRanSize(e: Expr, rhsFirst: bool, l: Value, r: Value, sc: Scope, lo: nat, code: seq<Instr>,
                        g0: nat, gs: seq<Global>, p0: nat)
    requires e.BinaryOperation? && OperandsRan(e, rhsFirst, l, r, sc, lo, code, g0, gs, p0)
    ensures |code| == CodeLen(e.lhs, sc) + CodeLen(e.rhs, sc) && |gs| == |PrintFormats(e.lhs)| + |PrintFormats(e.rhs)|
  {
  }

  /** Operands that ran, then the operation's instruction on their values, is a run of the operation. */
  lemma OperationRan(e: Expr, rhsFirst: bool, l: Value, r: Value, sc: Scope, lo: nat, body1: seq<Instr>, body2: seq<Instr>,
                     g0: nat, globals: seq<Global>, p0: nat)
    requires e.BinaryOperation? && !e.op.OtherToken? && lo <= |body1| && g0 <= |globals|
    requires OperandsRan(e, rhsFirst, l, r, sc, lo, body1[lo..], g0, globals[g0..], p0)
    requires body2 == body1 + [OperationFor(e.op, l, r)]
    ensures ExprRan(e, Inst(sc.block, |body1|), sc, lo, body2[lo..], g0, globals[g0..], p0)
  {
    OperationForShape(e.op, e.op, l, r);
    OperandsRanSize(e, rhsFirst, l, r, sc, lo, body1[lo..], g0, globals[g0..], p0);
    var code := body2[lo..];
    assert code[..|code| - 1] == body1[lo..] && code[|code| - 1] == body2[|body1|];
  }

  /** Identifier::codeGen. */
  method LowerIdentifier(ctx: CodeGenContext, name: string) returns (v: Value)
    requires ctx.Lowering()
    modifies ctx`blocks
    ensures ctx.Lowering()
    ensures name in ctx.functionArguments ==>
              v == ctx.functionArguments[name] && ctx.blocks == old(ctx.blocks)
    ensures name !in ctx.functionArguments && name !in ctx.Locals() ==>
              v == Null && ctx.blocks == old(ctx.blocks)
    ensures name !in ctx.functionArguments && name in ctx.Locals() ==>
              && ctx.blocks == Appended(old(ctx.blocks), ctx.Cur(), Load(ctx.Locals()[name]))
              && v == Inst(ctx.Cur(), |old(ctx.blocks[ctx.Cur()].body)|)
    ensures RanSince(ctx, Identifier(name), v, |old(ctx.blocks[ctx.Cur()].body)|, |ctx.globals|, ctx.names.printfCount)
  {
    if name in ctx.functionArguments {
      return ctx.functionArguments[name];
    }
    if name !in ctx.Locals() {
      // "undeclared variable": reported, and lowering goes on with null
      return Null;
    }
    v := ctx.AppendTo(ctx.Cur(), Load(ctx.Locals()[name]));
    assert ctx.blocks[ctx.Cur()].body[|old(ctx.blocks[ctx.Cur()].body)|..] == [Load(ctx.Locals()[name])];
  }

  /** Dispatch over the expression kinds (the virtual codeGen call). */
  method LowerExpr(ctx: CodeGenContext, e: Expr) returns (r: Completion)
    requires ctx.Lowering() && PrintsFit(ctx.names.printfCount, PrintFormats(e))
    modifies ctx`blocks, ctx`globals, ctx`globalIds, ctx.names
    decreases e, 4
    ensures ctx.Lowering()
    ensures ExprStep(ctx, old(ctx.blocks), old(ctx.globals), old(ctx.names.printfCount), old(ctx.names.branchCount))
    ensures r.Normal? ==> ctx.names.printfCount == old(ctx.names.printfCount) + |PrintFormats(e)|
    ensures KnownValue(e, ctx.functionArguments, ctx.Locals()).Some? ==>
              && r == Normal(KnownValue(e, ctx.functionArguments, ctx.Locals()).value)
              && ctx.blocks == old(ctx.blocks) && ctx.globals == old(ctx.globals)
              && ctx.names.printfCount == old(ctx.names.printfCount)
    ensures r.Normal? ==>
              RanSince(ctx, e, r.value, |old(ctx.blocks[ctx.Cur()].body)|, |old(ctx.globals)|, old(ctx.names.printfCount))
    ensures !HasAssignment(e) ==> r.Normal?
  {
    match e
    case Integer(v) =>
      r := Normal(ConstInt(v));
    case Double(d) =>
      r := Normal(ConstDouble(d));
    case Identifier(name) =>
      var v := LowerIdentifier(ctx, name);
      r := Normal(v);
    case BinaryOperation(_, _, _) =>
      r := LowerBinaryOperation(ctx, e);
    case MethodCall(_, _) =>
      r := LowerMethodCall(ctx, e);
    case PrintfMethodCall(format, _) =>
      assert PrintFormats(e)[0] == format;
      r := LowerPrintfCall(ctx, e);
    case Assignment(target, rhs) =>
      r := LowerAssignment(ctx, target, rhs);
  }

  /**
   * BinaryOperation::codeGen. Both operands are lowered inside one
   * argument list, so C++ leaves their order open: the model picks either.
   */
  method LowerBinaryOperation(ctx: CodeGenContext, e: Expr) returns (r: Completion)
    requires e.BinaryOperation?
    requires ctx.Lowering() && PrintsFit(ctx.names.printfCount, PrintFormats(e))
    modifies ctx`blocks, ctx`globals, ctx`globalIds, ctx.names
    decreases e, 2
    ensures ctx.Lowering()
    ensures ExprStep(ctx, old(ctx.blocks), old(ctx.globals), old(ctx.names.printfCount), old(ctx.names.branchCount))
    ensures r.Normal? ==> ctx.names.printfCount == old(ctx.names.printfCount) + |PrintFormats(e)|
    ensures !HasAssignment(e) ==> r.Normal?
    ensures e.op.OtherToken? ==>
              && r == Normal(Null) && ctx.blocks == old(ctx.blocks) && ctx.globals == old(ctx.globals)
              && ctx.names.printfCount == old(ctx.names.printfCount)
    ensures r.Normal? ==>
              RanSince(ctx, e, r.value, |old(ctx.blocks[ctx.Cur()].body)|, |old(ctx.globals)|, old(ctx.names.printfCount))
  {
    if e.op.OtherToken? {
      return Normal(Null);
    }
    var lv: Value, rv: Value;
    var rhsFirst: bool :| true;
    r, lv, rv := LowerOperands(ctx, e, rhsFirst);
    if r.Exited? {
      return;
    }
    ghost var b1 := ctx.blocks;
    var instr := OperationFor(e.op, lv, rv);
    var v := ctx.AppendTo(ctx.Cur(), instr);
    AppendStep(b1, ctx.Cur(), instr);
    ExprStepTransitive(ctx, old(ctx.blocks), b1, old(ctx.globals), ctx.globals, old(ctx.names.printfCount), ctx.names.printfCount, old(ctx.names.branchCount));
    OperationRan(e, rhsFirst, lv, rv, ScopeOf(ctx), |old(ctx.blocks[ctx.Cur()].body)|, b1[ctx.Cur()].body,
                 ctx.blocks[ctx.Cur()].body, |old(ctx.globals)|, ctx.globals, old(ctx.names.printfCount));
    r := Normal(v);
  }

  /** The two operands of `e`, the right one lowered first when `rhsFirst`, else the left one. */
  method LowerOperands(ctx: CodeGenContext, e: Expr, rhsFirst: bool)
    returns (r: Completion, lhsValue: Value, rhsValue: Value)
    requires e.BinaryOperation? && !e.op.OtherToken?
    requires ctx.Lowering() && PrintsFit(ctx.names.printfCount, PrintFormats(e))
    modifies ctx`blocks, ctx`globals, ctx`globalIds, ctx.names
    decreases e, 1
    ensures ctx.Lowering()
    ensures ExprStep(ctx, old(ctx.blocks), old(ctx.globals), old(ctx.names.printfCount), old(ctx.names.branchCount))
    ensures r.Normal? ==> ctx.names.printfCount == old(ctx.names.printfCount) + |PrintFormats(e)|
    ensures !HasAssignment(e) ==> r.Normal?
    ensures r.Normal? ==>
              OperandsRan(e, rhsFirst, lhsValue, rhsValue, ScopeOf(ctx), |old(ctx.blocks[ctx.Cur()].body)|,
                          ctx.blocks[ctx.Cur()].body[|old(ctx.blocks[ctx.Cur()].body)|..],
                          |old(ctx.globals)|, ctx.globals[|old(ctx.globals)|..], old(ctx.names.printfCount))
  {
    lhsValue, rhsValue := Null, Null;
    var first := if rhsFirst then e.rhs else e.lhs;
    var c0 := ctx.names.printfCount;
    PrintsFitPart(c0, [], PrintFormats(e.lhs), PrintFormats(e));
    PrintsFitPart(c0, PrintFormats(e.lhs), PrintFormats(e.rhs), PrintFormats(e));
    var a := LowerExpr(ctx, first);
    if a.Exited? {
      return Exited, lhsValue, rhsValue;
    }
    ghost var b1, g1, p1 := ctx.blocks, ctx.globals, ctx.names.printfCount;
    r, lhsValue, rhsValue := LowerSecondOperand(ctx, e, rhsFirst, a.value, |old(ctx.blocks[ctx.Cur()].body)|,
                                                |old(ctx.globals)|, old(ctx.names.printfCount));
    ExprStepTransitive(ctx, old(ctx.blocks), b1, old(ctx.globals), g1, old(ctx.names.printfCount), p1, old(ctx.names.branchCount));
  }

  /** The operand `LowerOperands` lowers second, once the first one has run and yielded firstValue. */
  method LowerSecondOperand(ctx: CodeGenContext, e: Expr, rhsFirst: bool, firstValue: Value, ghost lo: nat, ghost g0: nat, ghost p0: nat)
    returns (r: Completion, lhsValue: Value, rhsValue: Value)
    requires e.BinaryOperation? && !e.op.OtherToken?
    requires ctx.Lowering() && PrintsFit(p0, PrintFormats(e))
    requires ctx.names.printfCount == p0 + |PrintFormats(if rhsFirst then e.rhs else e.lhs)|
    requires RanSince(ctx, if rhsFirst then e.rhs else e.lhs, firstValue, lo, g0, p0)
    modifies ctx`blocks, ctx`globals, ctx`globalIds, ctx.names
    decreases e, 0
    ensures ctx.Lowering()
    ensures ExprStep(ctx, old(ctx.blocks), old(ctx.globals), old(ctx.names.printfCount), old(ctx.names.branchCount))
    ensures !HasAssignment(if rhsFirst then e.lhs else e.rhs) ==> r.Normal?
    ensures r.Normal? ==>
              && ctx.names.printfCount == p0 + |PrintFormats(e)|
              && OperandsRan(e, rhsFirst, lhsValue, rhsValue, ScopeOf(ctx), lo, ctx.blocks[ctx.Cur()].body[lo..],
                             g0, ctx.globals[g0..], p0)
  {
    lhsValue, rhsValue := Null, Null;
    var first, second := if rhsFirst then e.rhs else e.lhs, if rhsFirst then e.lhs else e.rhs;
    PrintsFitPart(p0, [], PrintFormats(e.lhs), PrintFormats(e));
    PrintsFitPart(p0, PrintFormats(e.lhs), PrintFormats(e.rhs), PrintFormats(e));
    assert |PrintFormats(e)| == |PrintFormats(first)| + |PrintFormats(second)|;
    ghost var body1, globals1 := ctx.blocks[ctx.Cur()].body, ctx.globals;
    var b := LowerExpr(ctx, second);
    if b.Exited? {
      return Exited, lhsValue, rhsValue;
    }
    r := Normal(Null);
    if rhsFirst {
      lhsValue, rhsValue := b.value, firstValue;
      OperandsRanRightFirst(e, lhsValue, rhsValue, ScopeOf(ctx), lo, body1, ctx.blocks[ctx.Cur()].body,
                            g0, globals1, ctx.globals, p0);
    } else {
      lhsValue, rhsValue := firstValue, b.value;
      OperandsRanLeftFirst(e, lhsValue, rhsValue, ScopeOf(ctx), lo, body1, ctx.blocks[ctx.Cur()].body,
                           g0, globals1, ctx.globals, p0);
    }
  }

  /**
   * Assignment::codeGen: a target missing from the top frame ends the
   * process before anything is lowered; otherwise the value is stored
   * into the target's slot.
   */
  method LowerAssignment(ctx: CodeGenContext, target: string, rhs: Expr) returns (r: Completion)
    requires ctx.Lowering() && PrintsFit(ctx.names.printfCount, PrintFormats(rhs))
    modifies ctx`blocks, ctx`globals, ctx`globalIds, ctx.names
    decreases rhs, 5
    ensures ctx.Lowering()
    ensures ExprStep(ctx, old(ctx.blocks), old(ctx.globals), old(ctx.names.printfCount), old(ctx.names.branchCount))
    ensures target !in ctx.Locals() ==>
              && r == Exited && ctx.blocks == old(ctx.blocks) && ctx.globals == old(ctx.globals)
              && ctx.names.printfCount == old(ctx.names.printfCount)
    ensures target in ctx.Locals() && !HasAssignment(rhs) ==> r.Normal?
    ensures r.Normal? ==>
              && ctx.names.printfCount == old(ctx.names.printfCount) + |PrintFormats(rhs)|
              && RanSince(ctx, Assignment(target, rhs), r.value, |old(ctx.blocks[ctx.Cur()].body)|, |old(ctx.globals)|,
                          old(ctx.names.printfCount))
  {
    if target !in ctx.Locals() {
      // "undeclared variable", then exit(-1)
      return Exited;
    }
    ghost var b0, g0 := ctx.blocks, ctx.globals;
    var value := LowerExpr(ctx, rhs);
    if value.Exited? {
      return Exited;
    }
    ghost var b1 := ctx.blocks;
    var instr := Store(value.value, ctx.Locals()[target]);
    var v := ctx.AppendTo(ctx.Cur(), instr);
    AppendStep(b1, ctx.Cur(), instr);
    ExprStepTransitive(ctx, b0, b1, g0, ctx.globals, old(ctx.names.printfCount), ctx.names.printfCount, old(ctx.names.branchCount));
    AssignmentRan(target, rhs, value.value, ScopeOf(ctx), |b0[ctx.Cur()].body|, b1[ctx.Cur()].body,
                  ctx.blocks[ctx.Cur()].body, |g0|, ctx.globals, old(ctx.names.printfCount));
    r := Normal(v);
  }

  /**
   * MethodCall::codeGen: look the callee up by name (a miss is reported
   * and the call is built with a null callee), lower the arguments in list
   * order, then append the call.
   */
  method LowerMethodCall(ctx: CodeGenContext, e: Expr) returns (r: Completion)
    requires e.MethodCall?
    requires ctx.Lowering() && PrintsFit(ctx.names.printfCount, PrintFormats(e))
    modifies ctx`blocks, ctx`globals, ctx`globalIds, ctx.names
    decreases e, 2
    ensures ctx.Lowering()
    ensures ExprStep(ctx, old(ctx.blocks), old(ctx.globals), old(ctx.names.printfCount), old(ctx.names.branchCount))
    ensures !HasAssignment(e) ==> r.Normal?
    ensures r.Normal? ==>
              && ctx.names.printfCount == old(ctx.names.printfCount) + |PrintFormats(e)|
              && RanSince(ctx, e, r.value, |old(ctx.blocks[ctx.Cur()].body)|, |old(ctx.globals)|, old(ctx.names.printfCount))
    ensures r.Normal? && e == MethodCallByName(e.methodName) ==>
              ctx.blocks[ctx.Cur()].body[|ctx.blocks[ctx.Cur()].body| - 1] == Call(Callee(ctx.functions, e.methodName), [])
  {
    var callee := Callee(ctx.functions, e.methodName);
    var values: seq<Value>;
    r, values := LowerArguments(ctx, e, e.arguments);
    if r.Exited? {
      return;
    }
    ghost var b1 := ctx.blocks;
    var instr := Call(callee, values);
    var v := ctx.AppendTo(ctx.Cur(), instr);
    AppendStep(b1, ctx.Cur(), instr);
    ExprStepTransitive(ctx, old(ctx.blocks), b1, old(ctx.globals), ctx.globals, old(ctx.names.printfCount), ctx.names.printfCount, old(ctx.names.branchCount));
    MethodCallRan(e, values, ScopeOf(ctx), |old(ctx.blocks[ctx.Cur()].body)|, b1[ctx.Cur()].body,
                  ctx.blocks[ctx.Cur()].body, |old(ctx.globals)|, ctx.globals, old(ctx.names.printfCount));
    r := Normal(v);
  }

  /**
   * The first i arguments of `args` were lowered since position lo of the
   * current block, global index g0 and print counter p0, yielding values.
   */
  ghost predicate ArgumentsLowered(ctx: CodeGenContext, args: seq<Expr>, i: nat, values: seq<Value>, lo: nat, g0: nat, p0: nat)
    reads ctx`frames, ctx`blocks, ctx`functions, ctx`globals, ctx`printfFunction, ctx.names
    requires 1 <= |ctx.frames| && ctx.Cur() < |ctx.blocks|
  {
    && i <= |args| && lo <= |ctx.blocks[ctx.Cur()].body| && g0 <= |ctx.globals|
    && ctx.names.printfCount == p0 + |PrintFormatsOf(args[..i])|
    && ArgsRan(args[..i], values, ScopeOf(ctx), lo, ctx.blocks[ctx.Cur()].body[lo..], g0, ctx.globals[g0..], p0)
  }

  /**
   * The argument loop shared by MethodCall and PrintfMethodCall: each
   * argument of `args` (a list inside node `e`) lowered in list order.
   */
  method LowerArguments(ctx: CodeGenContext, ghost e: Expr, args: seq<Expr>) returns (r: Completion, values: seq<Value>)
    requires (e.MethodCall? && args == e.arguments) || (e.PrintfMethodCall? && args == e.printArguments)
    requires ctx.Lowering() && PrintsFit(ctx.names.printfCount, PrintFormatsOf(args))
    modifies ctx`blocks, ctx`globals, ctx`globalIds, ctx.names
    decreases e, 1
    ensures ctx.Lowering()
    ensures ExprStep(ctx, old(ctx.blocks), old(ctx.globals), old(ctx.names.printfCount), old(ctx.names.branchCount))
    ensures (forall k :: 0 <= k < |args| ==> !HasAssignment(args[k])) ==> r.Normal?
    ensures r.Normal? ==>
              && ctx.names.printfCount == old(ctx.names.printfCount) + |PrintFormatsOf(args)|
              && ArgsRan(args, values, ScopeOf(ctx), |old(ctx.blocks[ctx.Cur()].body)|,
                         ctx.blocks[ctx.Cur()].body[|old(ctx.blocks[ctx.Cur()].body)|..],
                         |old(ctx.globals)|, ctx.globals[|old(ctx.globals)|..], old(ctx.names.printfCount))
  {
    ghost var lo, g0, p0 := |ctx.blocks[ctx.Cur()].body|, |ctx.globals|, ctx.names.printfCount;
    values := [];
    var i := 0;
    assert args[..0] == [] && ctx.blocks[ctx.Cur()].body[lo..] == [] && ctx.globals[g0..] == [];
    while i < |args|
      invariant 0 <= i <= |args|
      invariant ctx.Lowering()
      invariant ExprStep(ctx, old(ctx.blocks), old(ctx.globals), old(ctx.names.printfCount), old(ctx.names.branchCount))
      invariant ArgumentsLowered(ctx, args, i, values, lo, g0, p0)
    {
      ghost var b1, g1, p1 := ctx.blocks, ctx.globals, ctx.names.printfCount;
      var a := LowerArgument(ctx, e, args, i, values, lo, g0, p0);
      ExprStepTransitive(ctx, old(ctx.blocks), b1, old(ctx.globals), g1, old(ctx.names.printfCount), p1, old(ctx.names.branchCount));
      if a.Exited? {
        return Exited, values;
      }
      values := values + [a.value];
      i := i + 1;
    }
    assert args[..i] == args;
    r := Normal(Null);
  }

  /** One turn of the argument loop: argument i lowered after the ones before it. */
  method LowerArgument(ctx: CodeGenContext, ghost e: Expr, args: seq<Expr>, i: nat, ghost values: seq<Value>,
                       ghost lo: nat, ghost g0: nat, ghost p0: nat) returns (a: Completion)
    requires (e.MethodCall? && args == e.arguments) || (e.PrintfMethodCall? && args == e.printArguments)
    requires ctx.Lowering() && i < |args| && PrintsFit(p0, PrintFormatsOf(args))
    requires ArgumentsLowered(ctx, args, i, values, lo, g0, p0)
    modifies ctx`blocks, ctx`globals, ctx`globalIds, ctx.names
    decreases e, 0
    ensures ctx.Lowering()
    ensures ExprStep(ctx, old(ctx.blocks), old(ctx.globals), old(ctx.names.printfCount), old(ctx.names.branchCount))
    ensures a.Exited? ==> HasAssignment(args[i])
    ensures a.Normal? ==> ArgumentsLowered(ctx, args, i + 1, values + [a.value], lo, g0, p0)
  {
    ArgumentBudget(p0, args, i);
    a := LowerExpr(ctx, args[i]);
    if a.Normal? {
      ArgsRanExtend(args, i, values, a.value, ScopeOf(ctx), lo, old(ctx.blocks[ctx.Cur()].body), ctx.blocks[ctx.Cur()].body,
                    g0, old(ctx.globals), ctx.globals, p0);
    }
  }

  /**
   * The first half of PrintfMethodCall::codeGen: a fresh ".str" name, then
   * the rewritten format text as a NUL-terminated global of that name.
   */
  method InternFormat(ctx: CodeGenContext, format: string) returns (g: nat)
    requires 3 <= |format|
    requires ctx.Lowering() && ctx.names.printfCount < PrintNameLimit
    modifies ctx`globals, ctx`globalIds, ctx.names
    ensures ctx.Lowering()
    ensures ctx.names.printfCount == old(ctx.names.printfCount) + 1
    ensures ctx.names.branchCount == old(ctx.names.branchCount)
    ensures g == |old(ctx.globals)|
    ensures ctx.globals == old(ctx.globals) + [Interned(format, old(ctx.names.printfCount))]
  {
    var name := ctx.names.PrintfUniqueName();
    var fmt := FormatString.ProcessFormat(format);
    g := ctx.AddGlobal(Global(name, |fmt| + 1, CStringInit(fmt)), old(ctx.names.printfCount));
  }

  /**
   * PrintfMethodCall::codeGen: take a fresh ".str" name, rewrite the
   * format text, intern it as a global of (length + 1) bytes, then call
   * printf with a pointer to its first byte followed by the arguments.
   */
  method LowerPrintfCall(ctx: CodeGenContext, e: Expr) returns (r: Completion)
    requires e.PrintfMethodCall? && 3 <= |e.format|
    requires ctx.Lowering() && PrintsFit(ctx.names.printfCount, PrintFormats(e))
    modifies ctx`blocks, ctx`globals, ctx`globalIds, ctx.names
    decreases e, 3
    ensures ctx.Lowering()
    ensures ExprStep(ctx, old(ctx.blocks), old(ctx.globals), old(ctx.names.printfCount), old(ctx.names.branchCount))
    ensures |old(ctx.globals)| < |ctx.globals| && old(ctx.names.printfCount) < ctx.names.printfCount
    ensures ctx.globals[|old(ctx.globals)|] == Interned(e.format, old(ctx.names.printfCount))
    ensures !HasAssignment(e) ==> r.Normal?
    ensures r.Normal? ==>
              && ctx.names.printfCount == old(ctx.names.printfCount) + |PrintFormats(e)|
              && RanSince(ctx, e, r.value, |old(ctx.blocks[ctx.Cur()].body)|, |old(ctx.globals)|, old(ctx.names.printfCount))
  {
    var g := InternFormat(ctx, e.format);
    PrintsFitPart(old(ctx.names.printfCount), [e.format], PrintFormatsOf(e.printArguments), PrintFormats(e));
    ghost var g1 := ctx.globals;
    r := CallPrintf(ctx, e, g, |old(ctx.blocks[ctx.Cur()].body)|, old(ctx.names.printfCount));
    ExprStepTransitive(ctx, old(ctx.blocks), old(ctx.blocks), old(ctx.globals), g1, old(ctx.names.printfCount),
                       old(ctx.names.printfCount) + 1, old(ctx.names.branchCount));
  }

  /**
   * The second half of PrintfMethodCall::codeGen, once its format is
   * interned as global g: the arguments, then the call of printf.
   */
  method CallPrintf(ctx: CodeGenContext, e: Expr, g: nat, ghost lo: nat, ghost p0: nat) returns (r: Completion)
    requires e.PrintfMethodCall? && 3 <= |e.format|
    requires ctx.Lowering() && PrintsFit(p0 + 1, PrintFormatsOf(e.printArguments))
    requires ctx.names.printfCount == p0 + 1 && g + 1 == |ctx.globals| && ctx.globals[g] == Interned(e.format, p0)
    requires lo == |ctx.blocks[ctx.Cur()].body|
    modifies ctx`blocks, ctx`globals, ctx`globalIds, ctx.names
    decreases e, 2
    ensures ctx.Lowering()
    ensures ExprStep(ctx, old(ctx.blocks), old(ctx.globals), old(ctx.names.printfCount), old(ctx.names.branchCount))
    ensures !HasAssignment(e) ==> r.Normal?
    ensures r.Normal? ==>
              && ctx.names.printfCount == p0 + |PrintFormats(e)|
              && RanSince(ctx, e, r.value, lo, g, p0)
  {
    var values: seq<Value>;
    r, values := LowerArguments(ctx, e, e.printArguments);
    if r.Exited? {
      return;
    }
    ghost var b1 := ctx.blocks;
    var instr := Call(ctx.printfFunction, [GlobalStart(g)] + values);
    var v := ctx.AppendTo(ctx.Cur(), instr);
    AppendStep(b1, ctx.Cur(), instr);
    ExprStepTransitive(ctx, old(ctx.blocks), b1, old(ctx.globals), ctx.globals, old(ctx.names.printfCount), ctx.names.printfCount, old(ctx.names.branchCount));
    PrintfCallRan(e, values, ScopeOf(ctx), lo, b1[ctx.Cur()].body, ctx.blocks[ctx.Cur()].body, g, ctx.globals, p0);
    r := Normal(v);
  }
}
