/**
 * CodeGenContext: the state one lowering pass threads through every node.
 * It owns the module under construction (functions, globals, basic
 * blocks) and the stack of frames; each frame pairs the block that is
 * current while the frame is on top with that frame's locals map.
 *
 * The frame primitives (pushBlock, popBlock, locals(), currentBlock()) are
 * modelled as their uses require: a push makes a new top frame whose block
 * is current and whose locals map is empty, a pop restores the previous
 * frame, and name lookups consult the top frame only.
 */
module Context {
  import opened Wrappers
  import opened Ast
  import opened Ir

  datatype Frame = Frame(block: nat, locals: map<string, Value>)

  /** How a lowering step ended: with a value (possibly null), or by exit(-1). */
  datatype Completion = Normal(value: Value) | Exited

  /** typeOf: "int" and "double" name the two primitive types; every other name means void. */
  function TypeOf(name: string): (t: Type)
    ensures t == Int32Ty <==> name == "int"
    ensures t == DoubleTy <==> name == "double"
    ensures t == VoidTy <==> name != "int" && name != "double"
  {
    if name == "int" then Int32Ty
    else if name == "double" then DoubleTy
    else VoidTy
  }

  /**
   * Blocks b1 are blocks b0 where only block k gained instructions at its
   * end, other existing blocks are untouched, and new blocks may follow.
   */
  ghost predicate Grew(b0: seq<BasicBlock>, b1: seq<BasicBlock>, k: nat)
  {
    && |b0| <= |b1| && k < |b0|
    && b1[k].blockName == b0[k].blockName && b1[k].parent == b0[k].parent
    && b0[k].body <= b1[k].body
    && forall j :: 0 <= j < |b0| && j != k ==> b1[j] == b0[j]
  }

  lemma GrewTransitive(b0: seq<BasicBlock>, b1: seq<BasicBlock>, b2: seq<BasicBlock>, k: nat)
    requires Grew(b0, b1, k) && Grew(b1, b2, k)
    ensures Grew(b0, b2, k)
  {
  }

  /** Growth of another block k' that is new with respect to b0 leaves b0's blocks alone. */
  lemma GrewElsewhere(b0: seq<BasicBlock>, b1: seq<BasicBlock>, b2: seq<BasicBlock>, k: nat, k': nat)
    requires Grew(b0, b1, k) && Grew(b1, b2, k') && |b0| <= k'
    ensures Grew(b0, b2, k)
  {
  }

  /** Ids at positions i < j of the sequence are in increasing order. */
  ghost predicate IdsOrdered(ids: seq<nat>, i: int, j: int)
  {
    0 <= i < j < |ids| ==> ids[i] < ids[j]
  }

  /**
   * Global i is named ".str" followed by ids[i]; the ids increase strictly
   * and all lie below the counter's current value.
   */
  ghost predicate NamedFrom(globals: seq<Global>, ids: seq<nat>, count: nat)
  {
    && |ids| == |globals|
    && (forall i :: 0 <= i < |globals| ==> globals[i].name == PrintName(ids[i]) && ids[i] < count)
    && (forall i, j :: IdsOrdered(ids, i, j))
  }

  class CodeGenContext {
    var functions: seq<Function>
    var globals: seq<Global>
    var blocks: seq<BasicBlock>
    var frames: seq<Frame>
    /** The parameter table; no live code path writes it, so it stays as constructed. */
    const functionArguments: map<string, Value>
    var mainFunction: Value
    var printfFunction: Value
    /** The static name counters of the node classes, shared by every context. */
    const names: InstanceCounters
    /** The counter value each global's name was made from. */
    ghost var globalIds: seq<nat>

    ghost predicate Valid()
      reads this`frames, this`blocks, this`functions, this`globals, this`globalIds, names`printfCount
    {
      && (forall k :: 0 <= k < |frames| ==> frames[k].block < |blocks|)
      && (forall j :: 0 <= j < |blocks| ==> blocks[j].parent < |functions|)
      && NamedFrom(globals, globalIds, names.printfCount)
    }

    /** Valid, with a frame on the stack: the state every node is lowered in. */
    ghost predicate Lowering()
      reads this`frames, this`blocks, this`functions, this`globals, this`globalIds, names`printfCount
    {
      Valid() && 1 <= |frames|
    }

    /** currentBlock(): the block of the top frame. */
    function Cur(): nat
      reads this`frames
      requires 1 <= |frames|
    {
      frames[|frames| - 1].block
    }

    /** locals(): the map of the top frame. */
    function Locals(): map<string, Value>
      reads this`frames
      requires 1 <= |frames|
    {
      frames[|frames| - 1].locals
    }

    constructor (names: InstanceCounters)
      ensures Valid() && this.names == names
      ensures functions == [] && globals == [] && blocks == [] && frames == []
      ensures functionArguments == map[] && mainFunction == Null && printfFunction == Null
    {
      this.names := names;
      functions, globals, blocks, frames := [], [], [], [];
      functionArguments := map[];
      mainFunction, printfFunction := Null, Null;
      globalIds := [];
    }

    /** pushBlock: a new top frame with `block` current and no locals. */
    method PushBlock(block: nat)
      requires Valid() && block < |blocks|
      modifies this`frames
      ensures Valid() && frames == old(frames) + [Frame(block, map[])]
    {
      frames := frames + [Frame(block, map[])];
    }

    /** popBlock: drop the top frame, making the previous one current again. */
    method PopBlock()
      requires Valid() && 1 <= |frames|
      modifies this`frames
      ensures Valid() && frames == old(frames[..|frames| - 1])
    {
      frames := frames[..|frames| - 1];
    }

    /** `locals()[name] = value`: bind in the top frame, replacing any earlier binding. */
    method Bind(name: string, value: Value)
      requires Valid() && 1 <= |frames|
      modifies this`frames
      ensures Valid()
      ensures frames == old(frames[|frames| - 1 := Frame(Cur(), Locals()[name := value])])
    {
      frames := frames[|frames| - 1 := Frame(Cur(), Locals()[name := value])];
    }

    /** An instruction created with a block to insert into: it goes at that block's end. */
    method AppendTo(block: nat, i: Instr) returns (v: Value)
      requires Valid() && block < |blocks|
      modifies this`blocks
      ensures Valid() && blocks == Appended(old(blocks), block, i)
      ensures v == Inst(block, |old(blocks[block].body)|)
    {
      v := Inst(block, |blocks[block].body|);
      blocks := Appended(blocks, block, i);
    }

    /** BasicBlock::Create: a new empty block at the end of `parent`. */
    method NewBlock(name: string, parent: nat) returns (block: nat)
      requires Valid() && parent < |functions|
      modifies this`blocks
      ensures Valid() && blocks == old(blocks) + [BasicBlock(name, parent, [])]
      ensures block == |old(blocks)|
    {
      block := |blocks|;
      blocks := blocks + [BasicBlock(name, parent, [])];
    }

    /** Function::Create: a new function appended to the module. */
    method AddFunction(f: Function) returns (index: nat)
      requires Valid()
      modifies this`functions
      ensures Valid() && functions == old(functions) + [f] && index == |old(functions)|
    {
      index := |functions|;
      functions := functions + [f];
    }

    /** new GlobalVariable: a global appended to the module, named from counter value `id`. */
    method AddGlobal(g: Global, ghost id: nat) returns (index: nat)
      requires Valid()
      requires g.name == PrintName(id) && id < names.printfCount
      requires forall i :: 0 <= i < |globalIds| ==> globalIds[i] < id
      modifies this`globals, this`globalIds
      ensures Valid() && globals == old(globals) + [g] && index == |old(globals)|
      ensures globalIds == old(globalIds) + [id]
    {
      index := |globals|;
      globals := globals + [g];
      globalIds := globalIds + [id];
      forall i, j ensures IdsOrdered(globalIds, i, j) {
        assert IdsOrdered(old(globalIds), i, j);
      }
    }
  }

  /** Every global a valid context holds has its own name, whatever the texts. */
  lemma GlobalNamesDistinct(ctx: CodeGenContext, i: nat, j: nat)
    requires ctx.Valid() && i < j < |ctx.globals|
    ensures ctx.globals[i].name != ctx.globals[j].name
  {
    assert IdsOrdered(ctx.globalIds, i, j);
    PrintNamesDistinct(ctx.globalIds[i], ctx.globalIds[j]);
  }
}
