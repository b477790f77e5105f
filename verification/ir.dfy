/**
 * The abstract IR the lowering emits into: the parts of LLVM's module,
 * function, basic-block and instruction model that codegen.cpp uses, with
 * values as opaque handles.
 */
module Ir {
  import opened Wrappers
  import opened Ast

  datatype Type = Int32Ty | DoubleTy | VoidTy | Int8PtrTy

  /** A value handle: a constant, an instruction result, a function, a parameter or a global. */
  datatype Value =
    | Null
    | ConstInt(intValue: int32)
    | ConstDouble(doubleValue: DoubleLit)
    | Inst(block: nat, index: nat)       // result of instruction `index` of block `block`
    | Fn(fnIndex: nat)                   // the function at this position of the module
    | Arg(owner: nat, position: nat)     // a parameter of function `owner`
    | GlobalStart(global: nat)           // pointer to the first byte of a global

  datatype ArithOp = Add | Sub | Mul | SDiv
  datatype Predicate = Eq | Ne | Slt | Sgt | Sle | Sge

  datatype Instr =
    | Alloca(name: string, ty: Type)
    | Load(slot: Value)
    | Store(stored: Value, target: Value)
    | BinOp(arith: ArithOp, left: Value, right: Value)
    | ICmp(pred: Predicate, cmpLeft: Value, cmpRight: Value)
    | Call(callee: Value, args: seq<Value>)
    | Ret(result: Option<Value>)
    | CondBr(test: Value, trueBlock: nat, falseBlock: Option<nat>)

  datatype BasicBlock = BasicBlock(blockName: string, parent: nat, body: seq<Instr>)

  datatype Function = Function(name: string, returnType: Type, paramTypes: seq<Type>, varArg: bool)

  /** A read-only global byte array: its declared element count and its initializer. */
  datatype Global = Global(name: string, size: nat, init: seq<char>)

  /** Block k with one more instruction at its end. */
  function Appended(blocks: seq<BasicBlock>, k: nat, i: Instr): (r: seq<BasicBlock>)
    requires k < |blocks|
    ensures |r| == |blocks| && r[k].body == blocks[k].body + [i]
    ensures r[k].blockName == blocks[k].blockName && r[k].parent == blocks[k].parent
    ensures forall j :: 0 <= j < |blocks| && j != k ==> r[j] == blocks[j]
  {
    blocks[k := blocks[k].(body := blocks[k].body + [i])]
  }

  /** Control transfers: the only instructions that may end a block. */
  predicate IsControl(i: Instr)
  {
    i.CondBr? || i.Ret?
  }

  /** No control transfer from position n of body onward. */
  ghost predicate StraightFrom(body: seq<Instr>, n: nat)
  {
    forall k :: n <= k < |body| ==> !IsControl(body[k])
  }

  function CountCondBr(body: seq<Instr>): nat
  {
    if body == [] then 0
    else CountCondBr(body[..|body| - 1]) + (if body[|body| - 1].CondBr? then 1 else 0)
  }

  /** Straight-line code added behind a prefix adds no conditional branch. */
  lemma {:induction false} CountCondBrStraight(prefix: seq<Instr>, body: seq<Instr>)
    requires prefix <= body && StraightFrom(body, |prefix|)
    ensures CountCondBr(body) == CountCondBr(prefix)
    decreases |body|
  {
    if |body| > |prefix| {
      assert body[..|body| - 1][..|prefix|] == prefix;
      CountCondBrStraight(prefix, body[..|body| - 1]);
    } else {
      assert body == prefix;
    }
  }

  /**
   * Module::getFunction: the first function of the module with the given
   * name (LLVM keeps names unique by renaming later duplicates).
   */
  function FindFunction(fs: seq<Function>, name: string): (r: Option<nat>)
    ensures r.Some? ==> r.value < |fs| && fs[r.value].name == name
    ensures r.Some? ==> forall j :: 0 <= j < r.value ==> fs[j].name != name
    ensures r.None? ==> forall j :: 0 <= j < |fs| ==> fs[j].name != name
  {
    if fs == [] then None
    else if fs[0].name == name then Some(0)
    else match FindFunction(fs[1..], name)
      case None => None
      case Some(k) => Some(k + 1)
  }

  /** The characters before the first NUL (what a C string read stops at). */
  function UpToNul(s: seq<char>): (r: seq<char>)
    ensures r <= s && '\0' !in r
    ensures |r| < |s| ==> s[|r|] == '\0'
  {
    if s == [] || s[0] == '\0' then [] else [s[0]] + UpToNul(s[1..])
  }

  /**
   * ConstantDataArray::getString on `fmt.c_str()`: the text up to its first
   * NUL, plus the terminating NUL.
   */
  function CStringInit(s: seq<char>): (r: seq<char>)
    ensures 1 <= |r| && r[|r| - 1] == '\0' && '\0' !in r[..|r| - 1]
    ensures '\0' !in s ==> |r| == |s| + 1 && r[..|s|] == s && r[|s|] == '\0'
  {
    UpToNul(s) + ['\0']
  }
}
