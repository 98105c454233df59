/** `IRBuilder` (Compilador/src/ir/builder.rs): the object that lowers a syntax
    tree to three-address code, updating its function list and counters in place.
    Every method is proved to compute the lowering functions of module `Lowering`. */
module IrBuilder {
  import opened Wrappers
  import opened Decimal
  import opened Ast
  import opened Ir
  import opened Lowering

  class IRBuilder {
    var functions: seq<IRFunction>
    var currentFunction: Option<string>
    var tempCounter: nat
    var labelCounter: nat
    var stringLiterals: map<string, string>
    var stringCounter: nat

    /** The counters and string table, as the lowering functions thread them. */
    function Counters(): Gen
      reads this
    {
      Gen(tempCounter, labelCounter, stringCounter, stringLiterals)
    }

    function State(): BuildState
      reads this
    {
      BuildState(functions, Counters())
    }

    constructor ()
      ensures functions == [] && currentFunction == None
      ensures Counters() == InitialGen
    {
      functions := [];
      currentFunction := None;
      tempCounter := 0;
      labelCounter := 0;
      stringLiterals := map[];
      stringCounter := 0;
    }

    /** `build`: lowers every top-level statement and returns the functions built,
        with an empty globals table. */
    method Build(program: Program) returns (p: IRProgram)
      requires ProgramLowerable(program.statements, FindMain(functions).Some?)
      modifies this
      ensures State() == BuildAll(program.statements, old(State()))
      ensures p == IRProgram(functions, map[])
      ensures old(FunctionsLabelled(State())) ==>
        forall i :: 0 <= i < |p.functions| ==> LabelsWellFormed(p.functions[i].instructions)
      ensures old(FunctionsTempsDistinct(State())) ==>
        forall i :: 0 <= i < |p.functions| ==> NoDuplicates(WrittenTemps(p.functions[i].instructions))
    {
      var ss := program.statements;
      ghost var start := State();
      ghost var mainBuilt := FindMain(functions).Some?;
      var i := 0;
      while i < |ss|
        invariant 0 <= i <= |ss|
        invariant ProgramLowerable(ss[..i], mainBuilt)
        invariant State() == BuildAll(ss[..i], start)
      {
        ProgramLowerablePrefix(ss, mainBuilt, i + 1);
        assert ss[..i + 1][..i] == ss[..i];
        MainBuiltAfter(ss[..i], start);
        BuildStatement(ss[i]);
        i := i + 1;
      }
      assert ss[..i] == ss;
      p := IRProgram(functions, map[]);
      if FunctionsLabelled(start) {
        BuildAllLabels(ss, start);
      }
      if FunctionsTempsDistinct(start) {
        BuildAllTemps(ss, start);
      }
    }

    /** `build_statement`. */
    method BuildStatement(s: Stmt)
      requires TopLowerable(s, FindMain(functions).Some?)
      modifies this
      ensures State() == BuildTop(s, old(State()))
      ensures currentFunction == if s.Function? then None else old(currentFunction)
    {
      if s.Function? {
        currentFunction := Some(s.name);
        var built := IRFunction(s.name, ParamNames(s.params), [], map[]);
        built := BuildBlock(built, s.body);
        assert [] + LowerBlock(s.body, map[], old(Counters())).code == LowerBlock(s.body, map[], old(Counters())).code;
        functions := functions + [built];
        currentFunction := None;
      } else {
        var k := 0;
        while k < |functions| && functions[k].name != "main"
          invariant 0 <= k <= |functions|
          invariant forall j :: 0 <= j < k ==> functions[j].name != "main"
        {
          k := k + 1;
        }
        if k < |functions| {
          assert FindMain(functions) == Some(k);
          var main := BuildFunctionStatement(functions[k], s);
          functions := functions[k := main];
        }
      }
    }

    /** The `for stmt in block { self.build_function_statement(function, stmt) }`
        loops of `build_function_statement` and `build_statement`. */
    method BuildBlock(f: IRFunction, ss: seq<Stmt>) returns (f2: IRFunction)
      requires BlockLowerable(ss)
      modifies this`tempCounter, this`labelCounter, this`stringCounter, this`stringLiterals
      ensures var r := LowerBlock(ss, f.locals, old(Counters()));
        f2 == f.(instructions := f.instructions + r.code, locals := r.locals) && Counters() == r.gen
      decreases ss
    {
      ghost var g := Counters();
      f2 := f;
      var i := 0;
      while i < |ss|
        invariant 0 <= i <= |ss|
        invariant var r := LowerBlock(ss[..i], f.locals, g);
          f2 == f.(instructions := f.instructions + r.code, locals := r.locals) && Counters() == r.gen
      {
        assert ss[..i + 1][..i] == ss[..i];
        ghost var front := LowerBlock(ss[..i], f.locals, g);
        f2 := BuildFunctionStatement(f2, ss[i]);
        assert f.instructions + front.code + LowerStmt(ss[i], front.locals, front.gen).code
          == f.instructions + (front.code + LowerStmt(ss[i], front.locals, front.gen).code);
        i := i + 1;
      }
      assert ss[..i] == ss;
    }

    /** `build_function_statement`: appends the code of one statement to `f`. */
    method BuildFunctionStatement(f: IRFunction, s: Stmt) returns (f2: IRFunction)
      requires StmtLowerable(s)
      modifies this`tempCounter, this`labelCounter, this`stringCounter, this`stringLiterals
      ensures var r := LowerStmt(s, f.locals, old(Counters()));
        f2 == f.(instructions := f.instructions + r.code, locals := r.locals) && Counters() == r.gen
      decreases s, 1
    {
      match s
      case Let(name, _, value) =>
        var result;
        result, f2 := BuildExpression(f, value);
        var local := Local(name);
        f2 := f2.(instructions := f2.instructions + [IROp.Assign(local, result)]);
        f2 := f2.(locals := f2.locals[name := local]);
      case If(condition, thenBlock, elseBlock) =>
        f2 := BuildIf(f, condition, thenBlock, elseBlock);
      case While(condition, body) =>
        f2 := BuildWhile(f, condition, body);
      case Return(returned) =>
        if returned.Some? {
          var result;
          result, f2 := BuildExpression(f, returned.value);
          f2 := f2.(instructions := f2.instructions + [IROp.Return(Some(result))]);
        } else {
          f2 := f.(instructions := f.instructions + [IROp.Return(None)]);
        }
      case Print(expr) =>
        var result;
        result, f2 := BuildExpression(f, expr);
        f2 := f2.(instructions := f2.instructions + [IROp.Print(result)]);
      case _ =>
        f2 := f;
    }

    /** The `Stmt::If` arm of `build_function_statement`. */
    method BuildIf(f: IRFunction, condition: Expr, thenBlock: seq<Stmt>, elseBlock: ElseBlock)
      returns (f2: IRFunction)
      requires StmtLowerable(If(condition, thenBlock, elseBlock))
      modifies this`tempCounter, this`labelCounter, this`stringCounter, this`stringLiterals
      ensures var r := LowerStmt(If(condition, thenBlock, elseBlock), f.locals, old(Counters()));
        f2 == f.(instructions := f.instructions + r.code, locals := r.locals) && Counters() == r.gen
      decreases If(condition, thenBlock, elseBlock), 0
    {
      ghost var g := Counters();
      ghost var c := LowerExpr(condition, f.locals, g);
      var cond;
      cond, f2 := BuildExpression(f, condition);
      var elseLabel := NewLabel();
      var endLabel := NewLabel();
      assert elseLabel == LabelName(g.labels) && endLabel == LabelName(g.labels + 1);
      f2 := f2.(instructions := f2.instructions + [JumpIfZero(cond, elseLabel)]);
      ghost var t := LowerBlock(thenBlock, f.locals, c.gen.(labels := c.gen.labels + 2));
      f2 := BuildBlock(f2, thenBlock);
      f2 := f2.(instructions := f2.instructions + [Jump(endLabel)]);
      f2 := f2.(instructions := f2.instructions + [Label(elseLabel)]);
      ghost var e := match elseBlock
        case Else(stmts) => LowerBlock(stmts, t.locals, t.gen)
        case NoElse => StmtCode([], t.locals, t.gen);
      ghost var f4 := f2;
      f2 := BuildElse(f2, elseBlock);
      assert f2.instructions == f4.instructions + e.code && f2.locals == e.locals && Counters() == e.gen;
      f2 := f2.(instructions := f2.instructions + [Label(endLabel)]);
      IfStmtCode(condition, thenBlock, elseBlock, f.locals, g);
      IfAppendShape(f.instructions, c.code, JumpIfZero(c.value, elseLabel), t.code, Jump(endLabel),
                    Label(elseLabel), e.code, Label(endLabel));
    }

    /** The optional `else` block of the `Stmt::If` arm. */
    method BuildElse(f: IRFunction, elseBlock: ElseBlock) returns (f2: IRFunction)
      requires match elseBlock case Else(b) => BlockLowerable(b) case NoElse => true
      modifies this`tempCounter, this`labelCounter, this`stringCounter, this`stringLiterals
      ensures var e := match elseBlock
          case Else(b) => LowerBlock(b, f.locals, old(Counters()))
          case NoElse => StmtCode([], f.locals, old(Counters()));
        f2 == f.(instructions := f.instructions + e.code, locals := e.locals) && Counters() == e.gen
      decreases elseBlock
    {
      match elseBlock {
        case Else(stmts) => f2 := BuildBlock(f, stmts);
        case NoElse =>
          f2 := f;
          assert f.instructions + [] == f.instructions;
      }
    }

    /** The `Stmt::While` arm of `build_function_statement`. */
    method BuildWhile(f: IRFunction, condition: Expr, body: seq<Stmt>) returns (f2: IRFunction)
      requires StmtLowerable(While(condition, body))
      modifies this`tempCounter, this`labelCounter, this`stringCounter, this`stringLiterals
      ensures var r := LowerStmt(While(condition, body), f.locals, old(Counters()));
        f2 == f.(instructions := f.instructions + r.code, locals := r.locals) && Counters() == r.gen
      decreases While(condition, body), 0
    {
      ghost var g := Counters();
      var startLabel := NewLabel();
      var endLabel := NewLabel();
      f2 := f.(instructions := f.instructions + [Label(startLabel)]);
      var cond;
      cond, f2 := BuildExpression(f2, condition);
      ghost var c := LowerExpr(condition, f.locals, g.(labels := g.labels + 2));
      assert f2.instructions == f.instructions + [Label(startLabel)] + c.code;
      assert f2.locals == f.locals;
      f2 := f2.(instructions := f2.instructions + [JumpIfZero(cond, endLabel)]);
      ghost var b := LowerBlock(body, f.locals, c.gen);
      f2 := BuildBlock(f2, body);
      ghost var mid := f.instructions + [Label(startLabel)] + c.code + [JumpIfZero(c.value, endLabel)];
      assert f2.instructions == mid + b.code;
      f2 := f2.(instructions := f2.instructions + [Jump(startLabel)]);
      f2 := f2.(instructions := f2.instructions + [Label(endLabel)]);
      WhileStmtCode(condition, body, f.locals, g);
      AppendShape(f.instructions, [Label(startLabel)], c.code, [JumpIfZero(c.value, endLabel)], b.code, Jump(startLabel), Label(endLabel));
    }

    /** `build_expression`: appends the code computing `e` and returns its operand. */
    method BuildExpression(f: IRFunction, e: Expr) returns (v: IRValue, f2: IRFunction)
      requires ExprLowerable(e)
      modifies this`tempCounter, this`stringCounter, this`stringLiterals
      ensures var r := LowerExpr(e, f.locals, old(Counters()));
        v == r.value && f2 == f.(instructions := f.instructions + r.code) && Counters() == r.gen
      decreases e, 3
    {
      match e
      case Number(n) =>
        v, f2 := Const(n), f;
      case Boolean(b) =>
        v, f2 := Const(if b then 1 else 0), f;
      case String(s) =>
        var name := StringName(stringCounter);
        stringCounter := stringCounter + 1;
        stringLiterals := stringLiterals[name := s];
        v, f2 := Global(name), f;
      case Ident(name) =>
        if name in f.locals {
          v := f.locals[name];
        } else {
          v := Global(name);
        }
        f2 := f;
      case Infix(left, op, right) =>
        var leftResult, rightResult;
        leftResult, f2 := BuildExpression(f, left);
        rightResult, f2 := BuildExpression(f2, right);
        var temp := NewTemp();
        f2 := f2.(instructions := f2.instructions + [BinaryOp(op, temp, leftResult, rightResult)]);
        v := temp;
      case Call(callee, args) =>
        v, f2 := BuildCall(f, callee, args);
      case _ =>
        v, f2 := Const(0), f;
    }

    /** The `Expr::Call` arm of `build_expression`: the arguments left to right,
        then the call into a fresh temporary. */
    method BuildCall(f: IRFunction, callee: string, args: seq<Expr>) returns (v: IRValue, f2: IRFunction)
      requires ExprLowerable(Expr.Call(callee, args))
      modifies this`tempCounter, this`stringCounter, this`stringLiterals
      ensures var r := LowerExpr(Expr.Call(callee, args), f.locals, old(Counters()));
        v == r.value && f2 == f.(instructions := f.instructions + r.code) && Counters() == r.gen
      decreases Expr.Call(callee, args), 2
    {
      var argValues;
      argValues, f2 := BuildArgs(f, callee, args);
      var result := NewTemp();
      f2 := f2.(instructions := f2.instructions + [IROp.Call(callee, argValues, Some(result))]);
      v := result;
    }

    /** The argument loop of the `Call` arm of `build_expression`. */
    method BuildArgs(f: IRFunction, callee: string, args: seq<Expr>) returns (argValues: seq<IRValue>, f2: IRFunction)
      requires ExprLowerable(Expr.Call(callee, args))
      modifies this`tempCounter, this`stringCounter, this`stringLiterals
      ensures var r := LowerArgs(args, f.locals, old(Counters()));
        argValues == r.values && f2 == f.(instructions := f.instructions + r.code) && Counters() == r.gen
      decreases Expr.Call(callee, args), 1
    {
      ghost var g := Counters();
      argValues := [];
      f2 := f;
      var i := 0;
      while i < |args|
        invariant 0 <= i <= |args|
        invariant ArgsBuilt(args[..i], f, g, argValues, f2, Counters())
      {
        argValues, f2 := BuildArg(f, callee, args, i, g, argValues, f2);
        i := i + 1;
      }
      assert args[..i] == args;
    }

    /** One pass of the argument loop: lowers `args[i]` after the first `i`. */
    method BuildArg(ghost f: IRFunction, callee: string, args: seq<Expr>, i: nat, ghost g: Gen,
                    values: seq<IRValue>, f1: IRFunction)
      returns (argValues: seq<IRValue>, f2: IRFunction)
      requires i < |args| && ExprLowerable(Expr.Call(callee, args))
      requires ArgsBuilt(args[..i], f, g, values, f1, Counters())
      modifies this`tempCounter, this`stringCounter, this`stringLiterals
      ensures ArgsBuilt(args[..i + 1], f, g, argValues, f2, Counters())
      decreases Expr.Call(callee, args), 0
    {
      assert ArgsLowerable(args);
      ghost var front := LowerArgs(args[..i], f.locals, g);
      LowerArgsSnoc(args, i, f.locals, g);
      var arg;
      arg, f2 := BuildExpression(f1, args[i]);
      ghost var last := LowerExpr(args[i], f.locals, front.gen);
      assert f2.instructions == f.instructions + front.code + last.code;
      assert f.instructions + front.code + last.code == f.instructions + (front.code + last.code);
      argValues := values + [arg];
      assert argValues == front.values + [last.value];
    }

    /** `new_temp`: a fresh temporary named after the temp counter. */
    method NewTemp() returns (t: IRValue)
      modifies this`tempCounter
      ensures t == Temp(TempName(old(tempCounter))) && tempCounter == old(tempCounter) + 1
    {
      t := Temp(TempName(tempCounter));
      tempCounter := tempCounter + 1;
    }

    /** `new_label`: a fresh label named after the label counter. */
    method NewLabel() returns (l: string)
      modifies this`labelCounter
      ensures l == LabelName(old(labelCounter)) && labelCounter == old(labelCounter) + 1
    {
      l := LabelName(labelCounter);
      labelCounter := labelCounter + 1;
    }
  }

  /** `values` and `f2` are what lowering `args` after `f` yields, with counters `now`. */
  predicate ArgsBuilt(args: seq<Expr>, f: IRFunction, g: Gen, values: seq<IRValue>, f2: IRFunction, now: Gen)
  {
    ArgsLowerable(args) &&
    var r := LowerArgs(args, f.locals, g);
    values == r.values && f2 == f.(instructions := f.instructions + r.code) && now == r.gen
  }

  /** One more argument lowered after the first `i`. */
  lemma LowerArgsSnoc(args: seq<Expr>, i: nat, locals: map<string, IRValue>, g: Gen)
    requires i < |args| && ArgsLowerable(args)
    ensures ArgsLowerable(args[..i]) && ArgsLowerable(args[..i + 1]) && ExprLowerable(args[i])
    ensures var front := LowerArgs(args[..i], locals, g);
      var last := LowerExpr(args[i], locals, front.gen);
      LowerArgs(args[..i + 1], locals, g) == ArgsCode(front.code + last.code, front.values + [last.value], last.gen)
  {
    assert args[..i + 1][..i] == args[..i];
  }

  lemma AppendShape(a: seq<IROp>, b: seq<IROp>, c: seq<IROp>, d: seq<IROp>, e: seq<IROp>, x: IROp, y: IROp)
    ensures a + b + c + d + e + [x] + [y] == a + (b + c + d + e + [x, y])
  {
  }

  lemma IfAppendShape(a: seq<IROp>, c: seq<IROp>, jz: IROp, t: seq<IROp>, x: IROp, y: IROp, e: seq<IROp>, z: IROp)
    ensures a + c + [jz] + t + [x] + [y] + e + [z] == a + (c + [jz] + t + [x, y] + e + [z])
  {
  }
}
