/**
 * What lowering a tree consumes from the two static name counters of
 * ast.h: one ".str" name per print call lowered and one "branch" name per
 * branch arm block created. Their fixed-size buffers bound both counters,
 * so these counts are what a caller must leave room for.
 */
module NameBudget {
  import opened Wrappers
  import opened Ast

  /**
   * The format tokens of the print calls an expression lowers, in order.
   * An operation with an unknown token lowers neither operand.
   */
  function PrintFormats(e: Expr): seq<string>
    decreases e
  {
    match e
    case BinaryOperation(op, lhs, rhs) =>
      if op.OtherToken? then [] else PrintFormats(lhs) + PrintFormats(rhs)
    case MethodCall(_, args) => PrintFormatsOf(args)
    case PrintfMethodCall(format, args) => [format] + PrintFormatsOf(args)
    case Assignment(_, rhs) => PrintFormats(rhs)
    case _ => []
  }

  function PrintFormatsOf(es: seq<Expr>): seq<string>
    decreases es
  {
    if es == [] then [] else PrintFormatsOf(es[..|es| - 1]) + PrintFormats(es[|es| - 1])
  }

  function DeclPrintFormats(d: VarDecl): seq<string>
    decreases d
  {
    match d.assignmentExpression
    case None => []
    case Some(e) => PrintFormats(e)
  }

  function DeclsPrintFormats(ds: seq<VarDecl>): seq<string>
    decreases ds
  {
    if ds == [] then [] else DeclsPrintFormats(ds[..|ds| - 1]) + DeclPrintFormats(ds[|ds| - 1])
  }

  function StmtPrintFormats(s: Stmt): seq<string>
    decreases s
  {
    match s
    case ExpressionStatement(e) => PrintFormats(e)
    case VariableDeclaration(d) => DeclPrintFormats(d)
    case FunctionDeclaration(_, _, ps, body) => DeclsPrintFormats(ps) + BlockPrintFormats(body.statements)
    case ReturnStatement(e) => PrintFormats(e)
    case BranchStatement(test, bt, bf, hasFalse) =>
      PrintFormats(test) + BlockPrintFormats(bt.statements)
      + (if hasFalse then BlockPrintFormats(bf.statements) else [])
  }

  function BlockPrintFormats(ss: seq<Stmt>): seq<string>
    decreases ss
  {
    if ss == [] then [] else BlockPrintFormats(ss[..|ss| - 1]) + StmtPrintFormats(ss[|ss| - 1])
  }

  /** Branch block names a statement takes: one per branch, two when it has an else arm. */
  function BranchLabels(s: Stmt): nat
    decreases s
  {
    match s
    case FunctionDeclaration(_, _, _, body) => BlockBranchLabels(body.statements)
    case BranchStatement(_, bt, bf, hasFalse) =>
      (if hasFalse then 2 else 1) + BlockBranchLabels(bt.statements)
      + (if hasFalse then BlockBranchLabels(bf.statements) else 0)
    case _ => 0
  }

  function BlockBranchLabels(ss: seq<Stmt>): nat
    decreases ss
  {
    if ss == [] then 0 else BlockBranchLabels(ss[..|ss| - 1]) + BranchLabels(ss[|ss| - 1])
  }

  /**
   * The two VariableDeclaration constructors: without an initializer a
   * declaration takes no print names, with one it takes the initializer's.
   */
  lemma DeclarationBudget(typeName: string, name: string, value: Expr)
    ensures DeclPrintFormats(DeclarationWithoutInitializer(typeName, name)) == []
    ensures DeclPrintFormats(DeclarationWithInitializer(typeName, name, value)) == PrintFormats(value)
  {
  }

  /** The print counter has room for these sites, and every token has a body between its quotes. */
  ghost predicate PrintsFit(count: nat, fs: seq<string>)
  {
    count + |fs| <= PrintNameLimit && forall k :: 0 <= k < |fs| ==> 3 <= |fs[k]|
  }

  ghost predicate LabelsFit(count: nat, n: nat)
  {
    count + n <= BranchNameLimit
  }

  /** Room for a whole sequence of sites leaves room for any stretch of it. */
  lemma PrintsFitPart(count: nat, pre: seq<string>, part: seq<string>, whole: seq<string>)
    requires PrintsFit(count, whole) && pre + part <= whole
    ensures PrintsFit(count + |pre|, part)
  {
    forall k | 0 <= k < |part|
      ensures 3 <= |part[k]|
    {
      assert part[k] == (pre + part)[|pre| + k] == whole[|pre| + k];
    }
  }

  lemma FormatsOfStep(es: seq<Expr>, i: nat)
    requires i < |es|
    ensures PrintFormatsOf(es[..i + 1]) == PrintFormatsOf(es[..i]) + PrintFormats(es[i])
  {
    assert es[..i + 1][..i] == es[..i];
  }

  lemma {:induction false} FormatsOfPrefix(es: seq<Expr>, i: nat)
    requires i <= |es|
    ensures PrintFormatsOf(es[..i]) <= PrintFormatsOf(es)
    decreases |es| - i
  {
    if i < |es| {
      FormatsOfStep(es, i);
      FormatsOfPrefix(es, i + 1);
    } else {
      assert es[..i] == es;
    }
  }

  /** The budget of argument i, once the arguments before it have used theirs. */
  lemma ArgumentBudget(count: nat, es: seq<Expr>, i: nat)
    requires i < |es| && PrintsFit(count, PrintFormatsOf(es))
    ensures PrintsFit(count + |PrintFormatsOf(es[..i])|, PrintFormats(es[i]))
    ensures |PrintFormatsOf(es[..i + 1])| == |PrintFormatsOf(es[..i])| + |PrintFormats(es[i])|
  {
    FormatsOfStep(es, i);
    FormatsOfPrefix(es, i + 1);
    PrintsFitPart(count, PrintFormatsOf(es[..i]), PrintFormats(es[i]), PrintFormatsOf(es));
  }

  lemma DeclsStep(ds: seq<VarDecl>, i: nat)
    requires i < |ds|
    ensures DeclsPrintFormats(ds[..i + 1]) == DeclsPrintFormats(ds[..i]) + DeclPrintFormats(ds[i])
  {
    assert ds[..i + 1][..i] == ds[..i];
  }

  lemma {:induction false} DeclsPrefix(ds: seq<VarDecl>, i: nat)
    requires i <= |ds|
    ensures DeclsPrintFormats(ds[..i]) <= DeclsPrintFormats(ds)
    decreases |ds| - i
  {
    if i < |ds| {
      DeclsStep(ds, i);
      DeclsPrefix(ds, i + 1);
    } else {
      assert ds[..i] == ds;
    }
  }

  lemma BlockStep(ss: seq<Stmt>, i: nat)
    requires i < |ss|
    ensures BlockPrintFormats(ss[..i + 1]) == BlockPrintFormats(ss[..i]) + StmtPrintFormats(ss[i])
    ensures BlockBranchLabels(ss[..i + 1]) == BlockBranchLabels(ss[..i]) + BranchLabels(ss[i])
  {
    assert ss[..i + 1][..i] == ss[..i];
  }

  lemma {:induction false} BlockPrefix(ss: seq<Stmt>, i: nat)
    requires i <= |ss|
    ensures BlockPrintFormats(ss[..i]) <= BlockPrintFormats(ss)
    ensures BlockBranchLabels(ss[..i]) <= BlockBranchLabels(ss)
    decreases |ss| - i
  {
    if i < |ss| {
      BlockStep(ss, i);
      BlockPrefix(ss, i + 1);
    } else {
      assert ss[..i] == ss;
    }
  }

  /** The budgets of statement i, once the statements before it have used theirs. */
  lemma StatementBudget(prints: nat, labels: nat, ss: seq<Stmt>, i: nat)
    requires i < |ss| && PrintsFit(prints, BlockPrintFormats(ss)) && LabelsFit(labels, BlockBranchLabels(ss))
    ensures PrintsFit(prints + |BlockPrintFormats(ss[..i])|, StmtPrintFormats(ss[i]))
    ensures LabelsFit(labels + BlockBranchLabels(ss[..i]), BranchLabels(ss[i]))
    ensures |BlockPrintFormats(ss[..i + 1])| == |BlockPrintFormats(ss[..i])| + |StmtPrintFormats(ss[i])|
    ensures BlockBranchLabels(ss[..i + 1]) == BlockBranchLabels(ss[..i]) + BranchLabels(ss[i])
  {
    BlockStep(ss, i);
    BlockPrefix(ss, i + 1);
    PrintsFitPart(prints, BlockPrintFormats(ss[..i]), StmtPrintFormats(ss[i]), BlockPrintFormats(ss));
  }

  /** The budget of parameter i, once the parameters before it have used theirs. */
  lemma ParameterBudget(prints: nat, ds: seq<VarDecl>, i: nat)
    requires i < |ds| && PrintsFit(prints, DeclsPrintFormats(ds))
    ensures PrintsFit(prints + |DeclsPrintFormats(ds[..i])|, DeclPrintFormats(ds[i]))
    ensures |DeclsPrintFormats(ds[..i + 1])| == |DeclsPrintFormats(ds[..i])| + |DeclPrintFormats(ds[i])|
  {
    DeclsStep(ds, i);
    DeclsPrefix(ds, i + 1);
    PrintsFitPart(prints, DeclsPrintFormats(ds[..i]), DeclPrintFormats(ds[i]), DeclsPrintFormats(ds));
  }

  /** A function declaration's budget splits between its parameters and its body. */
  lemma FunctionBudget(prints: nat, s: Stmt)
    requires s.FunctionDeclaration? && PrintsFit(prints, StmtPrintFormats(s))
    ensures PrintsFit(prints, DeclsPrintFormats(s.parameters))
    ensures PrintsFit(prints + |DeclsPrintFormats(s.parameters)|, BlockPrintFormats(s.block.statements))
  {
    PrintsFitPart(prints, [], DeclsPrintFormats(s.parameters), StmtPrintFormats(s));
    PrintsFitPart(prints, DeclsPrintFormats(s.parameters), BlockPrintFormats(s.block.statements), StmtPrintFormats(s));
  }

  /** A branch's budget splits between its test, its labels and its two arms. */
  lemma BranchBudget(prints: nat, s: Stmt)
    requires s.BranchStatement? && PrintsFit(prints, StmtPrintFormats(s))
    ensures PrintsFit(prints, PrintFormats(s.testExpression))
    ensures PrintsFit(prints + |PrintFormats(s.testExpression)|, BlockPrintFormats(s.blockTrue.statements))
    ensures s.hasFalseBranch ==>
              PrintsFit(prints + |PrintFormats(s.testExpression)| + |BlockPrintFormats(s.blockTrue.statements)|,
                        BlockPrintFormats(s.blockFalse.statements))
    ensures |StmtPrintFormats(s)| == |PrintFormats(s.testExpression)| + |BlockPrintFormats(s.blockTrue.statements)|
                                     + (if s.hasFalseBranch then |BlockPrintFormats(s.blockFalse.statements)| else 0)
  {
    var test, arm := PrintFormats(s.testExpression), BlockPrintFormats(s.blockTrue.statements);
    PrintsFitPart(prints, [], test, StmtPrintFormats(s));
    PrintsFitPart(prints, test, arm, StmtPrintFormats(s));
    if s.hasFalseBranch {
      PrintsFitPart(prints, test + arm, BlockPrintFormats(s.blockFalse.statements), StmtPrintFormats(s));
    }
  }
}
