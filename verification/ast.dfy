/**
 * The node model of ast.h: one closed datatype per node family, the
 * constructors whose defaults matter, and the two static name counters.
 */
module Ast {
  import opened Wrappers

  /** `int` of the source: a 32-bit signed integer. */
  newtype int32 = x: int | -0x8000_0000 <= x < 0x8000_0000

  /** A double literal is carried as its 64 IEEE bits; floating point is not modelled. */
  datatype DoubleLit = DoubleBits(bits: bv64)

  /**
   * The operator of a BinaryOperation is a parser token. The ten tokens the
   * lowering knows get a constructor; any other token value is OtherToken.
   */
  datatype BinaryOp =
    | Plus | Minus | Mul | Div
    | CmpEq | CmpNe | CmpLt | CmpGt | CmpLe | CmpGe
    | OtherToken(code: int)

  /** Expressions: the subclasses of Expression (names are plain strings). */
  datatype Expr =
    | Integer(value: int32)
    | Double(dvalue: DoubleLit)
    | Identifier(name: string)
    | BinaryOperation(op: BinaryOp, lhs: Expr, rhs: Expr)
    | MethodCall(methodName: string, arguments: seq<Expr>)
    | PrintfMethodCall(format: string, printArguments: seq<Expr>)
    | Assignment(target: string, rhs: Expr)

  /** VariableDeclaration; a missing initializer is None. */
  datatype VarDecl = VarDecl(typeName: string, name: string, assignmentExpression: Option<Expr>)

  datatype StatementBlock = StatementBlock(statements: seq<Stmt>)

  /** Statements: the subclasses of Statement. */
  datatype Stmt =
    | ExpressionStatement(expression: Expr)
    | VariableDeclaration(decl: VarDecl)
    | FunctionDeclaration(functionType: string, functionName: string,
                          parameters: seq<VarDecl>, block: StatementBlock)
    | ReturnStatement(value: Expr)
    | BranchStatement(testExpression: Expr, blockTrue: StatementBlock,
                      blockFalse: StatementBlock, hasFalseBranch: bool)

  /** The name-only MethodCall constructor: the argument list stays empty. */
  function MethodCallByName(name: string): Expr
  {
    MethodCall(name, [])
  }

  /** The three-argument BranchStatement constructor: an else arm is present. */
  function BranchWithElse(test: Expr, blockTrue: StatementBlock, blockFalse: StatementBlock): Stmt
  {
    BranchStatement(test, blockTrue, blockFalse, true)
  }

  /**
   * The two-argument BranchStatement constructor: no else arm, and the
   * default-constructed false block is empty.
   */
  function BranchWithoutElse(test: Expr, blockTrue: StatementBlock): Stmt
  {
    BranchStatement(test, blockTrue, StatementBlock([]), false)
  }

  /**
   * The two-argument VariableDeclaration constructor leaves the initializer
   * pointer uninitialised; the model reads it as absent.
   */
  function DeclarationWithoutInitializer(typeName: string, name: string): VarDecl
  {
    VarDecl(typeName, name, None)
  }

  function DeclarationWithInitializer(typeName: string, name: string, value: Expr): VarDecl
  {
    VarDecl(typeName, name, Some(value))
  }

  // ---------------------------------------------------------------------
  // Decimal rendering, as sprintf's %d writes a non-negative int.

  function DigitChar(d: nat): (c: char)
    requires d < 10
    ensures '0' <= c <= '9'
  {
    ('0' as int + d) as char
  }

  function Decimal(n: nat): (s: string)
    ensures 1 <= |s|
    ensures forall k :: 0 <= k < |s| ==> '0' <= s[k] <= '9'
  {
    if n < 10 then [DigitChar(n)] else Decimal(n / 10) + [DigitChar(n % 10)]
  }

  /** The number a string of decimal digits stands for, read most significant digit first. */
  function DigitsValue(s: string): nat
    requires forall k :: 0 <= k < |s| ==> '0' <= s[k] <= '9'
  {
    if s == [] then 0 else 10 * DigitsValue(s[..|s| - 1]) + (s[|s| - 1] as int - '0' as int)
  }

  /** Reading the digits back gives the number that was rendered. */
  lemma {:induction false} DecimalRoundTrip(n: nat)
    ensures DigitsValue(Decimal(n)) == n
  {
    var s := Decimal(n);
    if n >= 10 {
      assert s[..|s| - 1] == Decimal(n / 10);
      DecimalRoundTrip(n / 10);
    }
  }

  function Pow10(k: nat): (p: nat)
    ensures 1 <= p
  {
    if k == 0 then 1 else 10 * Pow10(k - 1)
  }

  /** Different numbers never render to the same digits. */
  lemma {:induction false} DecimalInjective(a: nat, b: nat)
    requires Decimal(a) == Decimal(b)
    ensures a == b
  {
    var da, db := Decimal(a), Decimal(b);
    if a < 10 || b < 10 {
      // one digit on either side means one digit on both
      assert |da| == 1 <==> a < 10;
      assert |db| == 1 <==> b < 10;
      assert da[0] == DigitChar(a);
    } else {
      assert da[|da| - 1] == DigitChar(a % 10) && db[|db| - 1] == DigitChar(b % 10);
      assert da[..|da| - 1] == Decimal(a / 10) && db[..|db| - 1] == Decimal(b / 10);
      DecimalInjective(a / 10, b / 10);
    }
  }

  /** n has at most k digits exactly when n < 10^k. */
  lemma {:induction false} DecimalLength(n: nat, k: nat)
    requires 1 <= k
    ensures |Decimal(n)| <= k <==> n < Pow10(k)
  {
    if n >= 10 {
      if k == 1 {
        assert Pow10(1) == 10;
      } else {
        DecimalLength(n / 10, k - 1);
        assert n / 10 < Pow10(k - 1) <==> n < 10 * Pow10(k - 1);
      }
    } else {
      PowAtLeastTen(k);
    }
  }

  lemma {:induction false} PowAtLeastTen(k: nat)
    requires 1 <= k
    ensures 10 <= Pow10(k)
  {
    if k > 1 { PowAtLeastTen(k - 1); }
  }

  // ---------------------------------------------------------------------
  // PrintfMethodCall::getUniqueName and BranchStatement::getUniqueName.

  /** Size of the character buffers the two getUniqueName methods format into. */
  const PrintNameBuffer := 8
  const BranchNameBuffer := 16

  /** Counter values whose names still fit their buffers (terminator included). */
  const PrintNameLimit := 1000
  const BranchNameLimit := 1_000_000_000

  function PrintName(n: nat): string
  {
    ".str" + Decimal(n)
  }

  function BranchName(n: nat): string
  {
    "branch" + Decimal(n)
  }

  /** ".str<n>" and its terminator fit in 8 bytes exactly when n < 1000. */
  lemma PrintNameFits(n: nat)
    ensures |PrintName(n)| + 1 <= PrintNameBuffer <==> n < PrintNameLimit
  {
    DecimalLength(n, 3);
    assert Pow10(3) == 1000;
  }

  /** "branch<n>" and its terminator fit in 16 bytes exactly when n < 10^9. */
  lemma BranchNameFits(n: nat)
    ensures |BranchName(n)| + 1 <= BranchNameBuffer <==> n < BranchNameLimit
  {
    DecimalLength(n, 9);
    assert Pow10(9) == 1_000_000_000 by {
      assert Pow10(3) == 1000;
      assert Pow10(6) == 1000 * Pow10(3);
    }
  }

  lemma PrintNamesDistinct(a: nat, b: nat)
    requires a != b
    ensures PrintName(a) != PrintName(b)
  {
    if PrintName(a) == PrintName(b) {
      assert Decimal(a) == PrintName(a)[4..];
      DecimalInjective(a, b);
    }
  }

  lemma BranchNamesDistinct(a: nat, b: nat)
    requires a != b
    ensures BranchName(a) != BranchName(b)
  {
    if BranchName(a) == BranchName(b) {
      assert Decimal(a) == BranchName(a)[6..];
      DecimalInjective(a, b);
    }
  }

  /**
   * The two static `instanceCount` members. They are process-wide, so one
   * object is shared by whoever lowers code; both start at 0.
   */
  class InstanceCounters {
    var printfCount: nat
    var branchCount: nat

    constructor ()
      ensures printfCount == 0 && branchCount == 0
    {
      printfCount, branchCount := 0, 0;
    }

    /** PrintfMethodCall::getUniqueName: ".str" and the counter, then the counter steps by one. */
    method PrintfUniqueName() returns (name: string)
      requires printfCount < PrintNameLimit
      modifies this
      ensures name == PrintName(old(printfCount))
      ensures |name| + 1 <= PrintNameBuffer
      ensures printfCount == old(printfCount) + 1 && branchCount == old(branchCount)
    {
      PrintNameFits(printfCount);
      name := PrintName(printfCount);
      printfCount := printfCount + 1;
    }

    /** BranchStatement::getUniqueName: "branch" and the counter, then the counter steps by one. */
    method BranchUniqueName() returns (name: string)
      requires branchCount < BranchNameLimit
      modifies this
      ensures name == BranchName(old(branchCount))
      ensures |name| + 1 <= BranchNameBuffer
      ensures branchCount == old(branchCount) + 1 && printfCount == old(printfCount)
    {
      BranchNameFits(branchCount);
      name := BranchName(branchCount);
      branchCount := branchCount + 1;
    }
  }
}
