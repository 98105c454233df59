/** The lowering performed by `IRBuilder` (Compilador/src/ir/builder.rs), written as
    functions of the builder's counters. `IrBuilder.IRBuilder` is proved to compute
    exactly these; the lemmas here state the properties of the generated code. */
module Lowering {
  import opened Wrappers
  import opened Decimal
  import opened Ast
  import opened Ir

  /** The names `new_temp`, `new_label` and string interning form with `format!`. */
  function TempName(k: nat): string { "t" + NatToString(k) }

  function LabelName(k: nat): string { "label_" + NatToString(k) }

  function StringName(k: nat): string { "str_" + NatToString(k) }

  /** Reads back the counter value a builder label was formed from. */
  function LabelIndex(l: string): Option<nat> {
    if |l| >= 6 && l[..6] == "label_" then ParseNat(l[6..]) else None
  }

  lemma LabelIndexOfName(k: nat)
    ensures LabelIndex(LabelName(k)) == Some(k)
  {
    var l := LabelName(k);
    assert l[..6] == "label_" && l[6..] == NatToString(k);
    ParseNatRoundTrip(k, l[6..]);
  }

  /** Different counter values give different labels, so labels issued by one
      builder are pairwise distinct. */
  lemma LabelNameInjective(a: nat, b: nat)
    ensures LabelName(a) == LabelName(b) <==> a == b
  {
    LabelIndexOfName(a);
    LabelIndexOfName(b);
  }

  lemma TempNameInjective(a: nat, b: nat)
    ensures TempName(a) == TempName(b) <==> a == b
  {
    if TempName(a) == TempName(b) {
      assert TempName(a)[1..] == NatToString(a);
      assert TempName(b)[1..] == NatToString(b);
    }
  }

  lemma StringNameInjective(a: nat, b: nat)
    ensures StringName(a) == StringName(b) <==> a == b
  {
    if StringName(a) == StringName(b) {
      assert StringName(a)[4..] == NatToString(a);
      assert StringName(b)[4..] == NatToString(b);
    }
  }

  /** The builder's counters and string table, threaded through the lowering. */
  datatype Gen = Gen(temps: nat, labels: nat, strings: nat, literals: map<string, string>)

  datatype ExprCode = ExprCode(code: seq<IROp>, value: IRValue, gen: Gen)

  datatype ArgsCode = ArgsCode(code: seq<IROp>, values: seq<IRValue>, gen: Gen)

  datatype StmtCode = StmtCode(code: seq<IROp>, locals: map<string, IRValue>, gen: Gen)

  /** The infix operators `build_expression` lowers; any other one panics. */
  predicate SupportedOp(op: string) {
    op == "+" || op == "-" || op == "*" || op == "/" || op == "==" || op == "<"
  }

  function BinaryOp(op: string, result: IRValue, left: IRValue, right: IRValue): IROp
    requires SupportedOp(op)
  {
    if op == "+" then Add(result, left, right)
    else if op == "-" then Sub(result, left, right)
    else if op == "*" then Mul(result, left, right)
    else if op == "/" then Div(result, left, right)
    else if op == "==" then CmpEq(result, left, right)
    else CmpLt(result, left, right)
  }

  /** No infix operator the lowering reaches is unsupported (only infix operands and
      call arguments are lowered; other expression kinds are not descended into). */
  predicate ExprLowerable(e: Expr) {
    match e
    case Infix(l, op, r) => SupportedOp(op) && ExprLowerable(l) && ExprLowerable(r)
    case Call(_, args) => forall i :: 0 <= i < |args| ==> ExprLowerable(args[i])
    case _ => true
  }

  predicate ArgsLowerable(args: seq<Expr>) {
    forall i :: 0 <= i < |args| ==> ExprLowerable(args[i])
  }

  predicate StmtLowerable(s: Stmt) {
    match s
    case Let(_, _, v) => ExprLowerable(v)
    case If(c, t, e) =>
      ExprLowerable(c) && BlockLowerable(t) && (match e case Else(b) => BlockLowerable(b) case NoElse => true)
    case While(c, b) => ExprLowerable(c) && BlockLowerable(b)
    case Return(r) => r.Some? ==> ExprLowerable(r.value)
    case Print(v) => ExprLowerable(v)
    case _ => true
  }

  predicate BlockLowerable(ss: seq<Stmt>) {
    forall i :: 0 <= i < |ss| ==> StmtLowerable(ss[i])
  }

  /** `build_expression`: the code appended, the operand returned, the new counters. */
  function LowerExpr(e: Expr, locals: map<string, IRValue>, g: Gen): (r: ExprCode)
    requires ExprLowerable(e)
    ensures r.gen.labels == g.labels && r.gen.temps >= g.temps && r.gen.strings >= g.strings
    decreases e
  {
    match e
    case Number(n) => ExprCode([], Const(n), g)
    case Boolean(b) => ExprCode([], Const(if b then 1 else 0), g)
    case String(s) =>
      var name := StringName(g.strings);
      ExprCode([], Global(name), g.(strings := g.strings + 1, literals := g.literals[name := s]))
    case Ident(name) => ExprCode([], if name in locals then locals[name] else Global(name), g)
    case Infix(l, op, r) =>
      var lc := LowerExpr(l, locals, g);
      var rc := LowerExpr(r, locals, lc.gen);
      var t := Temp(TempName(rc.gen.temps));
      ExprCode(lc.code + rc.code + [BinaryOp(op, t, lc.value, rc.value)], t,
               rc.gen.(temps := rc.gen.temps + 1))
    case Call(f, args) =>
      var ac := LowerArgs(args, locals, g);
      var t := Temp(TempName(ac.gen.temps));
      ExprCode(ac.code + [IROp.Call(f, ac.values, Some(t))], t, ac.gen.(temps := ac.gen.temps + 1))
    case _ => ExprCode([], Const(0), g)
  }

  /** Call arguments, lowered left to right. */
  function LowerArgs(args: seq<Expr>, locals: map<string, IRValue>, g: Gen): (r: ArgsCode)
    requires ArgsLowerable(args)
    ensures |r.values| == |args|
    ensures r.gen.labels == g.labels && r.gen.temps >= g.temps && r.gen.strings >= g.strings
    decreases args
  {
    if args == [] then ArgsCode([], [], g)
    else
      var front := LowerArgs(args[..|args| - 1], locals, g);
      var last := LowerExpr(args[|args| - 1], locals, front.gen);
      ArgsCode(front.code + last.code, front.values + [last.value], last.gen)
  }

  /** `build_function_statement`: the code appended, the new locals table and counters. */
  function LowerStmt(s: Stmt, locals: map<string, IRValue>, g: Gen): (r: StmtCode)
    requires StmtLowerable(s)
    ensures r.gen.labels >= g.labels && r.gen.temps >= g.temps && r.gen.strings >= g.strings
    decreases s
  {
    match s
    case Let(name, _, v) =>
      var c := LowerExpr(v, locals, g);
      StmtCode(c.code + [IROp.Assign(Local(name), c.value)], locals[name := Local(name)], c.gen)
    case If(cond, tb, eb) =>
      var c := LowerExpr(cond, locals, g);
      var elseLabel, endLabel := LabelName(c.gen.labels), LabelName(c.gen.labels + 1);
      var t := LowerBlock(tb, locals, c.gen.(labels := c.gen.labels + 2));
      var e := match eb case Else(b) => LowerBlock(b, t.locals, t.gen) case NoElse => StmtCode([], t.locals, t.gen);
      StmtCode(c.code + [JumpIfZero(c.value, elseLabel)] + t.code + [Jump(endLabel), Label(elseLabel)]
               + e.code + [Label(endLabel)], e.locals, e.gen)
    case While(cond, body) =>
      var startLabel, endLabel := LabelName(g.labels), LabelName(g.labels + 1);
      var c := LowerExpr(cond, locals, g.(labels := g.labels + 2));
      var b := LowerBlock(body, locals, c.gen);
      StmtCode([Label(startLabel)] + c.code + [JumpIfZero(c.value, endLabel)] + b.code
               + [Jump(startLabel), Label(endLabel)], b.locals, b.gen)
    case Return(r) =>
      if r.None? then StmtCode([IROp.Return(None)], locals, g)
      else
        var c := LowerExpr(r.value, locals, g);
        StmtCode(c.code + [IROp.Return(Some(c.value))], locals, c.gen)
    case Print(v) =>
      var c := LowerExpr(v, locals, g);
      StmtCode(c.code + [IROp.Print(c.value)], locals, c.gen)
    case _ => StmtCode([], locals, g)
  }

  /** A statement list, lowered in order; each statement sees the locals the
      previous ones declared. */
  function LowerBlock(ss: seq<Stmt>, locals: map<string, IRValue>, g: Gen): (r: StmtCode)
    requires BlockLowerable(ss)
    ensures r.gen.labels >= g.labels && r.gen.temps >= g.temps && r.gen.strings >= g.strings
    decreases ss
  {
    if ss == [] then StmtCode([], locals, g)
    else
      var front := LowerBlock(ss[..|ss| - 1], locals, g);
      var last := LowerStmt(ss[|ss| - 1], front.locals, front.gen);
      StmtCode(front.code + last.code, last.locals, last.gen)
  }

  /** The code shape of a lowered `if` (an unfolding of `LowerStmt`). */
  lemma IfStmtCode(condition: Expr, thenBlock: seq<Stmt>, elseBlock: ElseBlock, locals: map<string, IRValue>, g: Gen)
    requires StmtLowerable(If(condition, thenBlock, elseBlock))
    ensures var c := LowerExpr(condition, locals, g);
      var t := LowerBlock(thenBlock, locals, c.gen.(labels := c.gen.labels + 2));
      var e := match elseBlock
        case Else(b) => LowerBlock(b, t.locals, t.gen)
        case NoElse => StmtCode([], t.locals, t.gen);
      LowerStmt(If(condition, thenBlock, elseBlock), locals, g) ==
      StmtCode(c.code + [JumpIfZero(c.value, LabelName(g.labels))] + t.code
               + [Jump(LabelName(g.labels + 1)), Label(LabelName(g.labels))] + e.code
               + [Label(LabelName(g.labels + 1))], e.locals, e.gen)
  {
  }

  /** The code shape of a lowered `while` (an unfolding of `LowerStmt`). */
  lemma WhileStmtCode(condition: Expr, body: seq<Stmt>, locals: map<string, IRValue>, g: Gen)
    requires StmtLowerable(While(condition, body))
    ensures var c := LowerExpr(condition, locals, g.(labels := g.labels + 2));
      var b := LowerBlock(body, locals, c.gen);
      LowerStmt(While(condition, body), locals, g) ==
      StmtCode([Label(LabelName(g.labels))] + c.code + [JumpIfZero(c.value, LabelName(g.labels + 1))] + b.code
               + [Jump(LabelName(g.labels)), Label(LabelName(g.labels + 1))], b.locals, b.gen)
  {
  }

  /** What one expression's lowering leaves behind. Literals, names and the kinds
      the builder does not lower append nothing and issue no temporary; a string
      literal takes the next string name and records its text. An infix operation
      or a call ends with one instruction that writes a fresh temporary, and that
      temporary is its value. */
  lemma ExprValueShape(e: Expr, locals: map<string, IRValue>, g: Gen)
    requires ExprLowerable(e)
    ensures var r := LowerExpr(e, locals, g);
      !(e.Infix? || e.Call?) ==> r.code == [] && r.gen.temps == g.temps
    ensures var r := LowerExpr(e, locals, g);
      (e.Number? ==> r.value == Const(e.n)) &&
      (e.Boolean? ==> r.value == Const(if e.b then 1 else 0)) &&
      (e.Ident? ==> r.value == if e.ident in locals then locals[e.ident] else Global(e.ident)) &&
      (e.ArrayLiteral? || e.ArrayIndex? || e.Grouped? ==> r.value == Const(0) && r.gen == g)
    ensures var r := LowerExpr(e, locals, g);
      e.String? ==>
        r.value == Global(StringName(g.strings)) && r.gen.strings == g.strings + 1 &&
        r.gen.literals == g.literals[StringName(g.strings) := e.s]
    ensures var r := LowerExpr(e, locals, g);
      e.Infix? || e.Call? ==>
        g.temps < r.gen.temps && r.value == Temp(TempName(r.gen.temps - 1)) && |r.code| > 0 &&
        (var last := r.code[|r.code| - 1];
         if e.Infix? then (last.IsArith() || last.CmpEq? || last.CmpLt?) && last.result == r.value
         else last.Call? && last.callee == e.callee && |last.args| == |e.args| && last.callResult == Some(r.value))
  {
    if e.Infix? {
      var lc := LowerExpr(e.left, locals, g);
      var rc := LowerExpr(e.right, locals, lc.gen);
      var t := Temp(TempName(rc.gen.temps));
      assert LowerExpr(e, locals, g) ==
        ExprCode(lc.code + rc.code + [BinaryOp(e.op, t, lc.value, rc.value)], t, rc.gen.(temps := rc.gen.temps + 1));
    } else if e.Call? {
      var ac := LowerArgs(e.args, locals, g);
      var t := Temp(TempName(ac.gen.temps));
      assert LowerExpr(e, locals, g) == ExprCode(ac.code + [IROp.Call(e.callee, ac.values, Some(t))], t, ac.gen.(temps := ac.gen.temps + 1));
    }
  }

  // ----- Labels -----

  /** A label the builder issued while its label counter ran from `lo` to `hi`. */
  predicate InLabelRange(l: string, lo: nat, hi: nat) {
    LabelIndex(l).Some? && lo <= LabelIndex(l).value < hi
  }

  predicate LabelsFrom(code: seq<IROp>, lo: nat, hi: nat) {
    forall l :: l in DefinedLabels(code) ==> InLabelRange(l, lo, hi)
  }

  /** Code that neither defines nor jumps to a label. */
  predicate LabelFree(code: seq<IROp>) {
    DefinedLabels(code) == [] && JumpTargets(code) == []
  }

  lemma LabelFreeAppend(a: seq<IROp>, b: seq<IROp>)
    requires LabelFree(a) && LabelFree(b)
    ensures LabelFree(a + b)
  {
    DefinedLabelsAppend(a, b);
    JumpTargetsAppend(a, b);
  }

  lemma NoDuplicatesAppend(a: seq<string>, b: seq<string>)
    requires NoDuplicates(a) && NoDuplicates(b)
    requires forall x :: x in a ==> x !in b
    ensures NoDuplicates(a + b)
  {
    forall i, j | 0 <= i < j < |a + b|
      ensures (a + b)[i] != (a + b)[j]
    {
      if i < |a| && j >= |a| {
        assert (a + b)[i] in a && (a + b)[j] in b;
      }
    }
  }

  /** Lowered expressions contain no labels and no jumps: all control flow
      comes from statements. */
  lemma {:induction false} ExprCodeLabelFree(e: Expr, locals: map<string, IRValue>, g: Gen)
    requires ExprLowerable(e)
    ensures LabelFree(LowerExpr(e, locals, g).code)
    decreases e
  {
    match e
    case Infix(l, op, r) =>
      var lc := LowerExpr(l, locals, g);
      var rc := LowerExpr(r, locals, lc.gen);
      ExprCodeLabelFree(l, locals, g);
      ExprCodeLabelFree(r, locals, lc.gen);
      LabelFreeAppend(lc.code, rc.code);
      var op' := BinaryOp(op, Temp(TempName(rc.gen.temps)), lc.value, rc.value);
      LabelFreeAppend(lc.code + rc.code, [op']);
    case Call(f, args) =>
      var ac := LowerArgs(args, locals, g);
      ArgsCodeLabelFree(args, locals, g);
      LabelFreeAppend(ac.code, [IROp.Call(f, ac.values, Some(Temp(TempName(ac.gen.temps))))]);
    case _ =>
  }

  lemma {:induction false} ArgsCodeLabelFree(args: seq<Expr>, locals: map<string, IRValue>, g: Gen)
    requires ArgsLowerable(args)
    ensures LabelFree(LowerArgs(args, locals, g).code)
    decreases args
  {
    if args != [] {
      var front := LowerArgs(args[..|args| - 1], locals, g);
      ArgsCodeLabelFree(args[..|args| - 1], locals, g);
      ExprCodeLabelFree(args[|args| - 1], locals, front.gen);
      LabelFreeAppend(front.code, LowerExpr(args[|args| - 1], locals, front.gen).code);
    }
  }

  /** Sequencing two well-formed pieces whose labels come from consecutive
      counter ranges keeps the labels well formed. */
  lemma LabelsSequence(a: seq<IROp>, b: seq<IROp>, lo: nat, mid: nat, hi: nat)
    requires lo <= mid <= hi
    requires LabelsWellFormed(a) && LabelsFrom(a, lo, mid)
    requires LabelsWellFormed(b) && LabelsFrom(b, mid, hi)
    ensures LabelsWellFormed(a + b) && LabelsFrom(a + b, lo, hi)
  {
    DefinedLabelsAppend(a, b);
    JumpTargetsAppend(a, b);
    NoDuplicatesAppend(DefinedLabels(a), DefinedLabels(b));
  }

  /** Every lowered statement defines each of its labels once, jumps only to
      labels it defines, and takes its labels from the counter values it used. */
  lemma {:induction false} StmtCodeLabels(s: Stmt, locals: map<string, IRValue>, g: Gen)
    requires StmtLowerable(s)
    ensures var r := LowerStmt(s, locals, g);
      LabelsWellFormed(r.code) && LabelsFrom(r.code, g.labels, r.gen.labels)
    decreases s, 1
  {
    match s
    case Let(name, _, v) =>
      var c := LowerExpr(v, locals, g);
      ExprCodeLabelFree(v, locals, g);
      LabelFreeAppend(c.code, [IROp.Assign(Local(name), c.value)]);
    case If(cond, tb, eb) => IfCodeLabels(cond, tb, eb, locals, g);
    case While(cond, body) => WhileCodeLabels(cond, body, locals, g);
    case Return(v) =>
      if v.Some? {
        var c := LowerExpr(v.value, locals, g);
        ExprCodeLabelFree(v.value, locals, g);
        LabelFreeAppend(c.code, [IROp.Return(Some(c.value))]);
      }
    case Print(v) =>
      var c := LowerExpr(v, locals, g);
      ExprCodeLabelFree(v, locals, g);
      LabelFreeAppend(c.code, [IROp.Print(c.value)]);
    case _ =>
  }

  lemma {:induction false} IfCodeLabels(cond: Expr, tb: seq<Stmt>, eb: ElseBlock,
                                        locals: map<string, IRValue>, g: Gen)
    requires StmtLowerable(If(cond, tb, eb))
    ensures var r := LowerStmt(If(cond, tb, eb), locals, g);
      LabelsWellFormed(r.code) && LabelsFrom(r.code, g.labels, r.gen.labels)
    decreases If(cond, tb, eb), 0
  {
    var c := LowerExpr(cond, locals, g);
    ExprCodeLabelFree(cond, locals, g);
    var lo := g.labels;
    LabelIndexOfName(lo);
    LabelIndexOfName(lo + 1);
    var t := LowerBlock(tb, locals, c.gen.(labels := lo + 2));
    BlockCodeLabels(tb, locals, c.gen.(labels := lo + 2));
    match eb {
      case Else(b) => BlockCodeLabels(b, t.locals, t.gen);
      case NoElse =>
    }
    var e := match eb case Else(b) => LowerBlock(b, t.locals, t.gen) case NoElse => StmtCode([], t.locals, t.gen);
    IfLabels(c.code, c.value, LabelName(lo), LabelName(lo + 1), t.code, e.code, lo, t.gen.labels, e.gen.labels);
  }

  lemma {:induction false} WhileCodeLabels(cond: Expr, body: seq<Stmt>, locals: map<string, IRValue>, g: Gen)
    requires StmtLowerable(While(cond, body))
    ensures var r := LowerStmt(While(cond, body), locals, g);
      LabelsWellFormed(r.code) && LabelsFrom(r.code, g.labels, r.gen.labels)
    decreases While(cond, body), 0
  {
    var lo := g.labels;
    LabelIndexOfName(lo);
    LabelIndexOfName(lo + 1);
    var c := LowerExpr(cond, locals, g.(labels := lo + 2));
    ExprCodeLabelFree(cond, locals, g.(labels := lo + 2));
    var b := LowerBlock(body, locals, c.gen);
    BlockCodeLabels(body, locals, c.gen);
    WhileStmtCode(cond, body, locals, g);
    WhileLabels(c.code, c.value, LabelName(lo), LabelName(lo + 1), b.code, lo, b.gen.labels);
  }

  lemma {:induction false} BlockCodeLabels(ss: seq<Stmt>, locals: map<string, IRValue>, g: Gen)
    requires BlockLowerable(ss)
    ensures var r := LowerBlock(ss, locals, g);
      LabelsWellFormed(r.code) && LabelsFrom(r.code, g.labels, r.gen.labels)
    decreases ss
  {
    if ss != [] {
      var front := LowerBlock(ss[..|ss| - 1], locals, g);
      BlockCodeLabels(ss[..|ss| - 1], locals, g);
      StmtCodeLabels(ss[|ss| - 1], front.locals, front.gen);
      var last := LowerStmt(ss[|ss| - 1], front.locals, front.gen);
      LabelsSequence(front.code, last.code, g.labels, front.gen.labels, last.gen.labels);
    }
  }

  lemma IfLabelLists(cond: seq<IROp>, v: IRValue, elseLabel: string, endLabel: string,
                     thenCode: seq<IROp>, elseCode: seq<IROp>)
    requires LabelFree(cond)
    ensures var code := cond + [JumpIfZero(v, elseLabel)] + thenCode + [Jump(endLabel), Label(elseLabel)]
                        + elseCode + [Label(endLabel)];
      DefinedLabels(code) == DefinedLabels(thenCode) + [elseLabel] + DefinedLabels(elseCode) + [endLabel] &&
      JumpTargets(code) == [elseLabel] + JumpTargets(thenCode) + [endLabel] + JumpTargets(elseCode)
  {
    var jz, b, f := JumpIfZero(v, elseLabel), [Jump(endLabel), Label(elseLabel)], [Label(endLabel)];
    var p1 := cond + [jz];
    var p2 := p1 + thenCode;
    var p3 := p2 + b;
    var p4 := p3 + elseCode;
    assert DefinedLabels(p1) == [] && JumpTargets(p1) == [elseLabel] by {
      DefinedLabelsAppend(cond, [jz]);
      JumpTargetsAppend(cond, [jz]);
      SingleLabels(jz);
    }
    assert DefinedLabels(b) == [elseLabel] && JumpTargets(b) == [endLabel] by {
      DefinedLabelsAppend([Jump(endLabel)], [Label(elseLabel)]);
      JumpTargetsAppend([Jump(endLabel)], [Label(elseLabel)]);
      SingleLabels(Jump(endLabel));
      SingleLabels(Label(elseLabel));
      assert [Jump(endLabel)] + [Label(elseLabel)] == b;
    }
    assert DefinedLabels(f) == [endLabel] && JumpTargets(f) == [] by {
      SingleLabels(Label(endLabel));
    }
    assert DefinedLabels(p2) == DefinedLabels(thenCode) by {
      DefinedLabelsAppend(p1, thenCode);
      assert [] + DefinedLabels(thenCode) == DefinedLabels(thenCode);
    }
    assert JumpTargets(p2) == [elseLabel] + JumpTargets(thenCode) by {
      JumpTargetsAppend(p1, thenCode);
    }
    assert DefinedLabels(p3) == DefinedLabels(thenCode) + [elseLabel] by {
      DefinedLabelsAppend(p2, b);
    }
    assert JumpTargets(p3) == [elseLabel] + JumpTargets(thenCode) + [endLabel] by {
      JumpTargetsAppend(p2, b);
    }
    assert DefinedLabels(p4) == DefinedLabels(thenCode) + [elseLabel] + DefinedLabels(elseCode) by {
      DefinedLabelsAppend(p3, elseCode);
    }
    assert JumpTargets(p4) == [elseLabel] + JumpTargets(thenCode) + [endLabel] + JumpTargets(elseCode) by {
      JumpTargetsAppend(p3, elseCode);
    }
    DefinedLabelsAppend(p4, f);
    JumpTargetsAppend(p4, f);
    assert JumpTargets(p4) + [] == JumpTargets(p4);
  }

  /** The label layout of a lowered `if`. */
  lemma IfLabels(cond: seq<IROp>, v: IRValue, elseLabel: string, endLabel: string,
                 thenCode: seq<IROp>, elseCode: seq<IROp>, lo: nat, mid: nat, hi: nat)
    requires LabelFree(cond) && lo + 2 <= mid <= hi
    requires LabelIndex(elseLabel) == Some(lo) && LabelIndex(endLabel) == Some(lo + 1)
    requires LabelsWellFormed(thenCode) && LabelsFrom(thenCode, lo + 2, mid)
    requires LabelsWellFormed(elseCode) && LabelsFrom(elseCode, mid, hi)
    ensures var code := cond + [JumpIfZero(v, elseLabel)] + thenCode + [Jump(endLabel), Label(elseLabel)]
                        + elseCode + [Label(endLabel)];
      LabelsWellFormed(code) && LabelsFrom(code, lo, hi)
  {
    IfLabelLists(cond, v, elseLabel, endLabel, thenCode, elseCode);
    var x1 := DefinedLabels(thenCode);
    var x2 := x1 + [elseLabel];
    var x3 := x2 + DefinedLabels(elseCode);
    NoDuplicatesAppend(x1, [elseLabel]);
    assert forall l :: l in x2 ==> InLabelRange(l, lo, mid);
    NoDuplicatesAppend(x2, DefinedLabels(elseCode));
    assert forall l :: l in x3 ==> InLabelRange(l, lo, hi) && LabelIndex(l).value != lo + 1;
    NoDuplicatesAppend(x3, [endLabel]);
  }

  lemma WhileLabelLists(cond: seq<IROp>, v: IRValue, startLabel: string, endLabel: string, body: seq<IROp>)
    requires LabelFree(cond)
    ensures var code := [Label(startLabel)] + cond + [JumpIfZero(v, endLabel)] + body
                        + [Jump(startLabel), Label(endLabel)];
      DefinedLabels(code) == [startLabel] + DefinedLabels(body) + [endLabel] &&
      JumpTargets(code) == [endLabel] + JumpTargets(body) + [startLabel]
  {
    var jz, f := JumpIfZero(v, endLabel), [Jump(startLabel), Label(endLabel)];
    var p1 := [Label(startLabel)] + cond;
    var p2 := p1 + [jz];
    var p3 := p2 + body;
    assert DefinedLabels(p1) == [startLabel] && JumpTargets(p1) == [] by {
      DefinedLabelsAppend([Label(startLabel)], cond);
      JumpTargetsAppend([Label(startLabel)], cond);
      SingleLabels(Label(startLabel));
    }
    assert DefinedLabels(p2) == [startLabel] && JumpTargets(p2) == [endLabel] by {
      DefinedLabelsAppend(p1, [jz]);
      JumpTargetsAppend(p1, [jz]);
      SingleLabels(jz);
    }
    assert DefinedLabels(f) == [endLabel] && JumpTargets(f) == [startLabel] by {
      DefinedLabelsAppend([Jump(startLabel)], [Label(endLabel)]);
      JumpTargetsAppend([Jump(startLabel)], [Label(endLabel)]);
      SingleLabels(Jump(startLabel));
      SingleLabels(Label(endLabel));
      assert [Jump(startLabel)] + [Label(endLabel)] == f;
    }
    DefinedLabelsAppend(p2, body);
    JumpTargetsAppend(p2, body);
    DefinedLabelsAppend(p3, f);
    JumpTargetsAppend(p3, f);
  }

  /** The label layout of a lowered `while`. */
  lemma WhileLabels(cond: seq<IROp>, v: IRValue, startLabel: string, endLabel: string,
                    body: seq<IROp>, lo: nat, hi: nat)
    requires LabelFree(cond) && lo + 2 <= hi
    requires LabelIndex(startLabel) == Some(lo) && LabelIndex(endLabel) == Some(lo + 1)
    requires LabelsWellFormed(body) && LabelsFrom(body, lo + 2, hi)
    ensures var code := [Label(startLabel)] + cond + [JumpIfZero(v, endLabel)] + body
                        + [Jump(startLabel), Label(endLabel)];
      LabelsWellFormed(code) && LabelsFrom(code, lo, hi)
  {
    WhileLabelLists(cond, v, startLabel, endLabel, body);
    var x1 := [startLabel] + DefinedLabels(body);
    NoDuplicatesAppend([startLabel], DefinedLabels(body));
    assert forall l :: l in x1 ==> InLabelRange(l, lo, hi) && LabelIndex(l).value != lo + 1;
    NoDuplicatesAppend(x1, [endLabel]);
  }

  // ----- Temporaries -----

  /** The temporaries a builder issues while its temp counter runs from `lo` to `hi`, in order. */
  function TempRange(lo: nat, hi: nat): (r: seq<string>)
    requires lo <= hi
    ensures |r| == hi - lo && forall i :: 0 <= i < hi - lo ==> r[i] == TempName(lo + i)
  {
    seq(hi - lo, i requires 0 <= i => TempName(lo + i))
  }

  lemma TempRangeSplit(lo: nat, mid: nat, hi: nat)
    requires lo <= mid <= hi
    ensures TempRange(lo, mid) + TempRange(mid, hi) == TempRange(lo, hi)
  {
    var a, b, c := TempRange(lo, mid), TempRange(mid, hi), TempRange(lo, hi);
    forall i | 0 <= i < |c|
      ensures (a + b)[i] == c[i]
    {
      if i >= |a| {
        assert (a + b)[i] == b[i - |a|];
      }
    }
  }

  lemma TempRangeSnoc(lo: nat, hi: nat)
    requires lo <= hi
    ensures TempRange(lo, hi) + [TempName(hi)] == TempRange(lo, hi + 1)
  {
    TempRangeSplit(lo, hi, hi + 1);
    assert TempRange(hi, hi + 1) == [TempName(hi)];
  }

  lemma BinaryOpWrites(op: string, t: string, left: IRValue, right: IRValue)
    requires SupportedOp(op)
    ensures WrittenTemps([BinaryOp(op, Temp(t), left, right)]) == [t]
  {
    var i := BinaryOp(op, Temp(t), left, right);
    assert Dest(i) == Some(Temp(t));
    SingleWrite(i);
  }

  /** The temporaries issued over one counter range are pairwise distinct. */
  lemma TempRangeDistinct(lo: nat, hi: nat)
    requires lo <= hi
    ensures NoDuplicates(TempRange(lo, hi))
  {
    var r := TempRange(lo, hi);
    forall i, j | 0 <= i < j < |r|
      ensures r[i] != r[j]
    {
      TempNameInjective(lo + i, lo + j);
    }
  }

  /** Consecutive counter ranges issue disjoint temporaries that together make
      up the joint range. */
  lemma TempRangesDisjoint(lo: nat, mid: nat, hi: nat)
    requires lo <= mid <= hi
    ensures forall t :: t in TempRange(lo, mid) ==> t !in TempRange(mid, hi)
    ensures forall t :: t in TempRange(lo, hi) <==> t in TempRange(lo, mid) || t in TempRange(mid, hi)
  {
    TempRangeSplit(lo, mid, hi);
    var a, b := TempRange(lo, mid), TempRange(mid, hi);
    forall t | t in a
      ensures t !in b
    {
      var i :| 0 <= i < |a| && a[i] == t;
      if t in b {
        var j :| 0 <= j < |b| && b[j] == t;
        TempNameInjective(lo + i, mid + j);
      }
    }
  }

  /** An expression's code writes exactly the temporaries its lowering issued,
      in the order issued and each once. */
  lemma {:induction false} ExprCodeTemps(e: Expr, locals: map<string, IRValue>, g: Gen)
    requires ExprLowerable(e)
    ensures var r := LowerExpr(e, locals, g);
      WrittenTemps(r.code) == TempRange(g.temps, r.gen.temps)
    decreases e
  {
    if e.Infix? {
      var lc := LowerExpr(e.left, locals, g);
      var rc := LowerExpr(e.right, locals, lc.gen);
      ExprCodeTemps(e.left, locals, g);
      ExprCodeTemps(e.right, locals, lc.gen);
      var t := rc.gen.temps;
      var op := BinaryOp(e.op, Temp(TempName(t)), lc.value, rc.value);
      assert LowerExpr(e, locals, g) == ExprCode(lc.code + rc.code + [op], Temp(TempName(t)), rc.gen.(temps := t + 1));
      assert WrittenTemps(lc.code + rc.code) == TempRange(g.temps, t) by {
        WrittenTempsAppend(lc.code, rc.code);
        TempRangeSplit(g.temps, lc.gen.temps, t);
      }
      WrittenTempsAppend(lc.code + rc.code, [op]);
      BinaryOpWrites(e.op, TempName(t), lc.value, rc.value);
      TempRangeSnoc(g.temps, t);
    } else if e.Call? {
      var ac := LowerArgs(e.args, locals, g);
      ArgsCodeTemps(e.args, locals, g);
      var t := ac.gen.temps;
      var op := IROp.Call(e.callee, ac.values, Some(Temp(TempName(t))));
      assert LowerExpr(e, locals, g) == ExprCode(ac.code + [op], Temp(TempName(t)), ac.gen.(temps := t + 1));
      WrittenTempsAppend(ac.code, [op]);
      SingleWrite(op);
      TempRangeSnoc(g.temps, t);
    } else {
      ExprValueShape(e, locals, g);
    }
  }

  lemma {:induction false} ArgsCodeTemps(args: seq<Expr>, locals: map<string, IRValue>, g: Gen)
    requires ArgsLowerable(args)
    ensures var r := LowerArgs(args, locals, g);
      WrittenTemps(r.code) == TempRange(g.temps, r.gen.temps)
    decreases args
  {
    if args != [] {
      var front := LowerArgs(args[..|args| - 1], locals, g);
      ArgsCodeTemps(args[..|args| - 1], locals, g);
      var last := LowerExpr(args[|args| - 1], locals, front.gen);
      ExprCodeTemps(args[|args| - 1], locals, front.gen);
      WrittenTempsAppend(front.code, last.code);
      TempRangeSplit(g.temps, front.gen.temps, last.gen.temps);
    }
  }

  /** An expression's code followed by one instruction that writes no temporary. */
  lemma ExprThenTemps(c: ExprCode, op: IROp, lo: nat)
    requires lo <= c.gen.temps && WrittenTemps(c.code) == TempRange(lo, c.gen.temps)
    requires (op.Assign? && !op.target.Temp?) || op.Return? || op.Print?
    ensures WrittenTemps(c.code + [op]) == TempRange(lo, c.gen.temps)
  {
    WrittenTempsAppend(c.code, [op]);
    SingleWrite(op);
  }

  /** A statement's code writes exactly the temporaries its lowering issued, in
      the order issued and each once. */
  lemma {:induction false} StmtCodeTemps(s: Stmt, locals: map<string, IRValue>, g: Gen)
    requires StmtLowerable(s)
    ensures var r := LowerStmt(s, locals, g);
      WrittenTemps(r.code) == TempRange(g.temps, r.gen.temps)
    decreases s, 1
  {
    match s
    case Let(name, _, v) =>
      ExprCodeTemps(v, locals, g);
      var c := LowerExpr(v, locals, g);
      ExprThenTemps(c, IROp.Assign(Local(name), c.value), g.temps);
    case If(cond, tb, eb) => IfCodeTemps(cond, tb, eb, locals, g);
    case While(cond, body) => WhileCodeTemps(cond, body, locals, g);
    case Return(v) =>
      if v.Some? {
        ExprCodeTemps(v.value, locals, g);
        var c := LowerExpr(v.value, locals, g);
        ExprThenTemps(c, IROp.Return(Some(c.value)), g.temps);
      } else {
        SingleWrite(IROp.Return(None));
      }
    case Print(v) =>
      ExprCodeTemps(v, locals, g);
      var c := LowerExpr(v, locals, g);
      ExprThenTemps(c, IROp.Print(c.value), g.temps);
    case _ =>
  }

  /** Appending an instruction that writes no temporary adds no written temporary. */
  lemma SnocNoWrite(code: seq<IROp>, op: IROp)
    requires Dest(op).None?
    ensures WrittenTemps(code + [op]) == WrittenTemps(code)
  {
    WrittenTempsAppend(code, [op]);
    SingleWrite(op);
  }

  lemma ConsNoWrite(op: IROp, code: seq<IROp>)
    requires Dest(op).None?
    ensures WrittenTemps([op] + code) == WrittenTemps(code)
  {
    assert ([op] + code)[1..] == code;
  }

  lemma IfTempLists(cond: seq<IROp>, v: IRValue, elseLabel: string, endLabel: string,
                    thenCode: seq<IROp>, elseCode: seq<IROp>)
    ensures var code := cond + [JumpIfZero(v, elseLabel)] + thenCode + [Jump(endLabel), Label(elseLabel)]
                        + elseCode + [Label(endLabel)];
      WrittenTemps(code) == WrittenTemps(cond) + WrittenTemps(thenCode) + WrittenTemps(elseCode)
  {
    var p1 := cond + [JumpIfZero(v, elseLabel)];
    var p2 := p1 + thenCode;
    var p3 := p2 + [Jump(endLabel)];
    var p4 := p3 + [Label(elseLabel)];
    var p5 := p4 + elseCode;
    SnocNoWrite(cond, JumpIfZero(v, elseLabel));
    WrittenTempsAppend(p1, thenCode);
    SnocNoWrite(p2, Jump(endLabel));
    SnocNoWrite(p3, Label(elseLabel));
    WrittenTempsAppend(p4, elseCode);
    SnocNoWrite(p5, Label(endLabel));
    assert p2 + [Jump(endLabel), Label(elseLabel)] == p4;
  }

  lemma {:induction false} IfCodeTemps(cond: Expr, tb: seq<Stmt>, eb: ElseBlock,
                                       locals: map<string, IRValue>, g: Gen)
    requires StmtLowerable(If(cond, tb, eb))
    ensures var r := LowerStmt(If(cond, tb, eb), locals, g);
      WrittenTemps(r.code) == TempRange(g.temps, r.gen.temps)
    decreases If(cond, tb, eb), 0
  {
    var c := LowerExpr(cond, locals, g);
    ExprCodeTemps(cond, locals, g);
    var t := LowerBlock(tb, locals, c.gen.(labels := c.gen.labels + 2));
    BlockCodeTemps(tb, locals, c.gen.(labels := c.gen.labels + 2));
    match eb {
      case Else(b) => BlockCodeTemps(b, t.locals, t.gen);
      case NoElse =>
    }
    var e := match eb case Else(b) => LowerBlock(b, t.locals, t.gen) case NoElse => StmtCode([], t.locals, t.gen);
    IfStmtCode(cond, tb, eb, locals, g);
    IfTempLists(c.code, c.value, LabelName(g.labels), LabelName(g.labels + 1), t.code, e.code);
    TempRangeSplit(g.temps, c.gen.temps, t.gen.temps);
    TempRangeSplit(g.temps, t.gen.temps, e.gen.temps);
  }

  lemma WhileTempLists(cond: seq<IROp>, v: IRValue, startLabel: string, endLabel: string, body: seq<IROp>)
    ensures var code := [Label(startLabel)] + cond + [JumpIfZero(v, endLabel)] + body
                        + [Jump(startLabel), Label(endLabel)];
      WrittenTemps(code) == WrittenTemps(cond) + WrittenTemps(body)
  {
    var p1 := [Label(startLabel)] + cond;
    var p2 := p1 + [JumpIfZero(v, endLabel)];
    var p3 := p2 + body;
    var p4 := p3 + [Jump(startLabel)];
    ConsNoWrite(Label(startLabel), cond);
    SnocNoWrite(p1, JumpIfZero(v, endLabel));
    WrittenTempsAppend(p2, body);
    SnocNoWrite(p3, Jump(startLabel));
    SnocNoWrite(p4, Label(endLabel));
    assert p3 + [Jump(startLabel), Label(endLabel)] == p4 + [Label(endLabel)];
  }

  lemma {:induction false} WhileCodeTemps(cond: Expr, body: seq<Stmt>, locals: map<string, IRValue>, g: Gen)
    requires StmtLowerable(While(cond, body))
    ensures var r := LowerStmt(While(cond, body), locals, g);
      WrittenTemps(r.code) == TempRange(g.temps, r.gen.temps)
    decreases While(cond, body), 0
  {
    var g' := g.(labels := g.labels + 2);
    var c := LowerExpr(cond, locals, g');
    ExprCodeTemps(cond, locals, g');
    var b := LowerBlock(body, locals, c.gen);
    BlockCodeTemps(body, locals, c.gen);
    WhileStmtCode(cond, body, locals, g);
    WhileTempLists(c.code, c.value, LabelName(g.labels), LabelName(g.labels + 1), b.code);
    TempRangeSplit(g.temps, c.gen.temps, b.gen.temps);
  }

  lemma {:induction false} BlockCodeTemps(ss: seq<Stmt>, locals: map<string, IRValue>, g: Gen)
    requires BlockLowerable(ss)
    ensures var r := LowerBlock(ss, locals, g);
      WrittenTemps(r.code) == TempRange(g.temps, r.gen.temps)
    decreases ss
  {
    if ss != [] {
      var front := LowerBlock(ss[..|ss| - 1], locals, g);
      BlockCodeTemps(ss[..|ss| - 1], locals, g);
      StmtCodeTemps(ss[|ss| - 1], front.locals, front.gen);
      var last := LowerStmt(ss[|ss| - 1], front.locals, front.gen);
      WrittenTempsAppend(front.code, last.code);
      TempRangeSplit(g.temps, front.gen.temps, last.gen.temps);
    }
  }

  // ----- Top level -----

  /** The builder's function list and counters between top-level statements. */
  datatype BuildState = BuildState(functions: seq<IRFunction>, gen: Gen)

  const InitialGen: Gen := Gen(0, 0, 0, map[])

  /** `functions.iter_mut().find(|f| f.name == "main")`: the first function named `main`. */
  function FindMain(fs: seq<IRFunction>): (r: Option<nat>)
    ensures r.Some? ==> r.value < |fs| && fs[r.value].name == "main"
    ensures r.Some? ==> forall k :: 0 <= k < r.value ==> fs[k].name != "main"
    ensures r.None? <==> forall k :: 0 <= k < |fs| ==> fs[k].name != "main"
  {
    if fs == [] then None
    else if fs[0].name == "main" then Some(0)
    else match FindMain(fs[1..])
      case None => None
      case Some(k) => Some(k + 1)
  }

  /** The parameter names of a declaration, in order. */
  function ParamNames(params: seq<(string, Type)>): (r: seq<string>)
    ensures |r| == |params| && forall i :: 0 <= i < |params| ==> r[i] == params[i].0
  {
    if params == [] then [] else ParamNames(params[..|params| - 1]) + [params[|params| - 1].0]
  }

  /** A top-level statement can be built without a panic, given whether a `main`
      function has been built already. */
  predicate TopLowerable(s: Stmt, mainBuilt: bool) {
    if s.Function? then BlockLowerable(s.body) else mainBuilt ==> StmtLowerable(s)
  }

  /** `build_statement`: a declaration is lowered into a new function; any other
      statement is lowered into the first `main` function, or dropped if there is none. */
  function BuildTop(s: Stmt, st: BuildState): (r: BuildState)
    requires TopLowerable(s, FindMain(st.functions).Some?)
    ensures r.gen.labels >= st.gen.labels
  {
    if s.Function? then
      var body := LowerBlock(s.body, map[], st.gen);
      BuildState(st.functions + [IRFunction(s.name, ParamNames(s.params), body.code, body.locals)], body.gen)
    else
      match FindMain(st.functions)
      case None => st
      case Some(k) =>
        var main := st.functions[k];
        var c := LowerStmt(s, main.locals, st.gen);
        BuildState(st.functions[k := main.(instructions := main.instructions + c.code, locals := c.locals)], c.gen)
  }

  /** Some statement of the list declares a function named `main`. */
  predicate DeclaresMain(ss: seq<Stmt>) {
    exists j :: 0 <= j < |ss| && ss[j].Function? && ss[j].name == "main"
  }

  /** No statement of the list makes the builder panic: an unsupported operator
      only panics in code that is actually lowered. */
  predicate ProgramLowerable(ss: seq<Stmt>, mainBuilt: bool) {
    forall i :: 0 <= i < |ss| ==> TopLowerable(ss[i], mainBuilt || DeclaresMain(ss[..i]))
  }

  lemma ProgramLowerablePrefix(ss: seq<Stmt>, mainBuilt: bool, n: nat)
    requires n <= |ss| && ProgramLowerable(ss, mainBuilt)
    ensures ProgramLowerable(ss[..n], mainBuilt)
  {
    forall i | 0 <= i < n
      ensures TopLowerable(ss[..n][i], mainBuilt || DeclaresMain(ss[..n][..i]))
    {
      assert ss[..n][..i] == ss[..i];
    }
  }

  /** `build`'s loop: the top-level statements, in order. */
  function BuildAll(ss: seq<Stmt>, st: BuildState): (r: BuildState)
    requires ProgramLowerable(ss, FindMain(st.functions).Some?)
    decreases |ss|, 0
  {
    if ss == [] then st
    else
      ProgramLowerablePrefix(ss, FindMain(st.functions).Some?, |ss| - 1);
      MainBuiltAfter(ss[..|ss| - 1], st);
      BuildTop(ss[|ss| - 1], BuildAll(ss[..|ss| - 1], st))
  }

  lemma DeclaresMainSnoc(ss: seq<Stmt>)
    requires ss != []
    ensures DeclaresMain(ss) <==>
      DeclaresMain(ss[..|ss| - 1]) || (ss[|ss| - 1].Function? && ss[|ss| - 1].name == "main")
  {
    var n := |ss| - 1;
    if DeclaresMain(ss) {
      var j :| 0 <= j < |ss| && ss[j].Function? && ss[j].name == "main";
      if j < n {
        assert ss[..n][j] == ss[j];
      }
    }
    if DeclaresMain(ss[..n]) {
      var j :| 0 <= j < n && ss[..n][j].Function? && ss[..n][j].name == "main";
      assert ss[j] == ss[..n][j];
    }
  }

  /** A top-level statement builds a `main` function exactly when it declares one. */
  lemma BuildTopMain(s: Stmt, st: BuildState)
    requires TopLowerable(s, FindMain(st.functions).Some?)
    ensures FindMain(BuildTop(s, st).functions).Some? <==>
      FindMain(st.functions).Some? || (s.Function? && s.name == "main")
  {
    var fs := BuildTop(s, st).functions;
    if s.Function? {
      assert fs[|fs| - 1].name == s.name;
      assert forall k :: 0 <= k < |st.functions| ==> fs[k] == st.functions[k];
    } else {
      assert |fs| == |st.functions|;
      assert forall k :: 0 <= k < |fs| ==> fs[k].name == st.functions[k].name;
    }
  }

  /** A `main` function exists after a sequence of top-level statements exactly
      when one existed before or one of them declared it. */
  lemma {:induction false} MainBuiltAfter(ss: seq<Stmt>, st: BuildState)
    requires ProgramLowerable(ss, FindMain(st.functions).Some?)
    ensures FindMain(BuildAll(ss, st).functions).Some? <==> FindMain(st.functions).Some? || DeclaresMain(ss)
    decreases |ss|, 1
  {
    if ss != [] {
      var n := |ss| - 1;
      ProgramLowerablePrefix(ss, FindMain(st.functions).Some?, n);
      MainBuiltAfter(ss[..n], st);
      BuildTopMain(ss[n], BuildAll(ss[..n], st));
      DeclaresMainSnoc(ss);
    }
  }

  /** Every function built so far has well-formed labels taken from `0 .. labels`. */
  predicate FunctionsLabelled(st: BuildState) {
    forall i :: 0 <= i < |st.functions| ==>
      LabelsWellFormed(st.functions[i].instructions) && LabelsFrom(st.functions[i].instructions, 0, st.gen.labels)
  }

  lemma BuildTopLabels(s: Stmt, st: BuildState)
    requires TopLowerable(s, FindMain(st.functions).Some?) && FunctionsLabelled(st)
    ensures FunctionsLabelled(BuildTop(s, st))
  {
    var r := BuildTop(s, st);
    if s.Function? {
      BlockCodeLabels(s.body, map[], st.gen);
      assert r.functions[|r.functions| - 1].instructions == LowerBlock(s.body, map[], st.gen).code;
    } else if FindMain(st.functions).Some? {
      var k := FindMain(st.functions).value;
      var main := st.functions[k];
      StmtCodeLabels(s, main.locals, st.gen);
      var c := LowerStmt(s, main.locals, st.gen);
      LabelsSequence(main.instructions, c.code, 0, st.gen.labels, c.gen.labels);
    }
  }

  lemma {:induction false} BuildAllLabels(ss: seq<Stmt>, st: BuildState)
    requires ProgramLowerable(ss, FindMain(st.functions).Some?) && FunctionsLabelled(st)
    ensures FunctionsLabelled(BuildAll(ss, st))
    decreases |ss|
  {
    if ss != [] {
      var n := |ss| - 1;
      ProgramLowerablePrefix(ss, FindMain(st.functions).Some?, n);
      MainBuiltAfter(ss[..n], st);
      BuildAllLabels(ss[..n], st);
      BuildTopLabels(ss[n], BuildAll(ss[..n], st));
    }
  }

  /** Label well-formedness of the builder's output: in every function built from
      a program, each label is defined once and every jump targets one of its labels. */
  lemma BuildLabelsWellFormed(ss: seq<Stmt>)
    requires ProgramLowerable(ss, false)
    ensures var fs := BuildAll(ss, BuildState([], InitialGen)).functions;
      forall i :: 0 <= i < |fs| ==> LabelsWellFormed(fs[i].instructions)
  {
    BuildAllLabels(ss, BuildState([], InitialGen));
  }

  /** In every function built so far each temporary is written at most once,
      and all of them were issued before the counter's current value. */
  predicate FunctionsTempsDistinct(st: BuildState) {
    forall i :: 0 <= i < |st.functions| ==>
      NoDuplicates(WrittenTemps(st.functions[i].instructions)) &&
      forall t :: t in WrittenTemps(st.functions[i].instructions) ==> t in TempRange(0, st.gen.temps)
  }

  lemma BuildTopTemps(s: Stmt, st: BuildState)
    requires TopLowerable(s, FindMain(st.functions).Some?) && FunctionsTempsDistinct(st)
    ensures FunctionsTempsDistinct(BuildTop(s, st))
  {
    var r := BuildTop(s, st);
    var lo := st.gen.temps;
    TempRangesDisjoint(0, lo, r.gen.temps);
    if s.Function? {
      BlockCodeTemps(s.body, map[], st.gen);
      TempRangeDistinct(lo, r.gen.temps);
      assert r.functions[|r.functions| - 1].instructions == LowerBlock(s.body, map[], st.gen).code;
      assert forall i :: 0 <= i < |st.functions| ==> r.functions[i] == st.functions[i];
    } else if FindMain(st.functions).Some? {
      var k := FindMain(st.functions).value;
      var main := st.functions[k];
      StmtCodeTemps(s, main.locals, st.gen);
      var c := LowerStmt(s, main.locals, st.gen);
      TempRangeDistinct(lo, c.gen.temps);
      WrittenTempsAppend(main.instructions, c.code);
      NoDuplicatesAppend(WrittenTemps(main.instructions), WrittenTemps(c.code));
      assert r.functions[k].instructions == main.instructions + c.code;
    }
  }

  lemma {:induction false} BuildAllTemps(ss: seq<Stmt>, st: BuildState)
    requires ProgramLowerable(ss, FindMain(st.functions).Some?) && FunctionsTempsDistinct(st)
    ensures FunctionsTempsDistinct(BuildAll(ss, st))
    decreases |ss|
  {
    if ss != [] {
      var n := |ss| - 1;
      ProgramLowerablePrefix(ss, FindMain(st.functions).Some?, n);
      MainBuiltAfter(ss[..n], st);
      BuildAllTemps(ss[..n], st);
      BuildTopTemps(ss[n], BuildAll(ss[..n], st));
    }
  }

  /** In every function built from a program by a fresh builder, no
      temporary is written twice. */
  lemma BuildTempsDistinct(ss: seq<Stmt>)
    requires ProgramLowerable(ss, false)
    ensures var fs := BuildAll(ss, BuildState([], InitialGen)).functions;
      forall i :: 0 <= i < |fs| ==> NoDuplicates(WrittenTemps(fs[i].instructions))
  {
    BuildAllTemps(ss, BuildState([], InitialGen));
  }
}
