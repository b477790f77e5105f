/**
 * The two helpers of ast.cpp: the operation-name table and the
 * indentation string used by the tree printer.
 */
module AstText {

  /** The anonymous enum of ast.h, in declaration order. */
  datatype OperationCode = OpAdd | OpSub | OpDiv | OpMul | OpMinus

  /** The value C gives each enumerator: its position in the declaration. */
  function Ordinal(c: OperationCode): nat
  {
    match c
    case OpAdd => 0
    case OpSub => 1
    case OpDiv => 2
    case OpMul => 3
    case OpMinus => 4
  }

  /** The enumerator's identifier as written in the declaration. */
  function Spelling(c: OperationCode): string
  {
    match c
    case OpAdd => "OP_ADD"
    case OpSub => "OP_SUB"
    case OpDiv => "OP_DIV"
    case OpMul => "OP_MUL"
    case OpMinus => "OP_MINUS"
  }

  /** The static five-entry table inside GetOperationName. */
  const OpNames: seq<string> := ["OP_ADD", "OP_SUB", "OP_DIV", "OP_MUL", "OP_MINUS"]

  /**
   * GetOperationName indexes the table without a check: only 0..4 are
   * defined, anything else reads past the table.
   */
  function GetOperationName(op: int): (name: string)
    requires 0 <= op < |OpNames|
    ensures exists c: OperationCode :: Ordinal(c) == op && Spelling(c) == name
  {
    var c := if op == 0 then OpAdd else if op == 1 then OpSub else if op == 2 then OpDiv
             else if op == 3 then OpMul else OpMinus;
    assert Ordinal(c) == op;
    OpNames[op]
  }

  /** The table and the enum agree: the name at position Ordinal(c) spells c. */
  lemma OperationNameSpellsEnumerator(c: OperationCode)
    ensures Ordinal(c) < |OpNames| && GetOperationName(Ordinal(c)) == Spelling(c)
  {
  }

  /** `chars` written `n` times. */
  function Repeat(chars: string, n: nat): string
  {
    if n == 0 then [] else chars + Repeat(chars, n - 1)
  }

  lemma {:induction false} RepeatLength(chars: string, n: nat)
    ensures |Repeat(chars, n)| == n * |chars|
  {
    if n > 0 {
      RepeatLength(chars, n - 1);
      assert n * |chars| == |chars| + (n - 1) * |chars|;
    }
  }

  /** One more level adds `chars` at the end. */
  lemma {:induction false} RepeatOneMore(chars: string, n: nat)
    ensures Repeat(chars, n + 1) == Repeat(chars, n) + chars
  {
    if n > 0 {
      RepeatOneMore(chars, n - 1);
      assert Repeat(chars, n + 1) == chars + (Repeat(chars, n - 1) + chars);
    }
  }

  /** The level an indentation request yields: a level at or below zero yields nothing. */
  function Depth(level: int): nat
  {
    if level <= 0 then 0 else level
  }

  /** GetIdentation: append `chars` to a stream once per level. */
  method GetIdentation(level: int, chars: string) returns (s: string)
    ensures s == Repeat(chars, Depth(level))
    ensures level <= 0 ==> s == []
    ensures 0 <= level ==> |s| == level * |chars|
  {
    s := [];
    var i := 0;
    while i < level
      invariant 0 <= i <= Depth(level)
      invariant s == Repeat(chars, i)
    {
      RepeatOneMore(chars, i);
      s := s + chars;
      i := i + 1;
    }
    RepeatLength(chars, i);
  }

  /** The indentation for level+1 is that for level followed by `chars`. */
  lemma IndentationStep(level: nat, chars: string)
    ensures Repeat(chars, Depth(level + 1)) == Repeat(chars, Depth(level)) + chars
  {
    RepeatOneMore(chars, level);
  }
}
