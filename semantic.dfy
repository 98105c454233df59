/** The type checker (Compilador/src/semantic/mod.rs). One flat symbol table
    maps names to variables and functions; there are no scopes, so a name
    declared inside a block stays visible after it. The analysis is first
    stated as functions (`ExprType`, `CheckStmt`, `CheckBlock`, `CheckProgram`);
    the `SemanticAnalyzer` class follows them. */
module Semantic {
  import opened Wrappers
  import opened Ast
  import opened Types

  /** A symbol table entry: its type is a variable's type or a function's
      return type; only functions carry parameter types. */
  datatype Symbol = Symbol(name: string, typ: Type, isFunction: bool, params: Option<seq<Type>>)

  /** The analyzer's state: the symbol table and the function being analyzed. */
  datatype Env = Env(symbols: map<string, Symbol>, currentFunction: Option<string>, currentReturnType: Option<Type>)

  /** The `{:?}` text of a type. */
  function TypeDebug(t: Type): string {
    match t
    case Int => "Int"
    case Bool => "Bool"
    case String => "String"
    case Array(elem) => "Array(" + TypeDebug(elem) + ")"
    case Void => "Void"
  }

  predicate IsArithmetic(op: string) {
    op == "+" || op == "-" || op == "*" || op == "/"
  }

  predicate IsComparison(op: string) {
    op == "==" || op == "!=" || op == "<" || op == ">" || op == "<=" || op == ">="
  }

  /** The typing rule of an infix operator, once both operands are typed. */
  function InfixType(left: Type, op: string, right: Type): Result<Type> {
    if IsArithmetic(op) then
      if left == Int && right == Int then Ok(Int)
      else if left == Type.String && op == "+" then Ok(Type.String)
      else Err("Operación aritmética inválida entre " + TypeDebug(left) + " y " + TypeDebug(right))
    else if IsComparison(op) then
      if IsComparable(left, right) then Ok(Bool)
      else Err("No se pueden comparar " + TypeDebug(left) + " y " + TypeDebug(right))
    else Err("Operador desconocido: " + op)
  }

  /** `analyze_expression`. */
  function ExprType(symbols: map<string, Symbol>, e: Expr): Result<Type>
    decreases e
  {
    match e
    case Number(_) => Ok(Int)
    case Boolean(_) => Ok(Bool)
    case String(_) => Ok(Type.String)
    case Ident(name) =>
      if name !in symbols then Err("Variable '" + name + "' no declarada")
      else if symbols[name].isFunction then Err("'" + name + "' es una función, no una variable")
      else Ok(symbols[name].typ)
    case ArrayLiteral(elements) =>
      if |elements| == 0 then Ok(Array(Int))
      else
        var first :- ExprType(symbols, elements[0]);
        var _ :- ElementsFrom(symbols, elements, first, 1);
        Ok(Array(first))
    case ArrayIndex(indexed, index) =>
      var arrayType :- ExprType(symbols, indexed);
      var indexType :- ExprType(symbols, index);
      if indexType != Int then Err("Índice de array debe ser entero")
      else if arrayType.Array? then Ok(arrayType.elem)
      else Err("No es un array")
    case Infix(left, op, right) =>
      var leftType :- ExprType(symbols, left);
      var rightType :- ExprType(symbols, right);
      InfixType(leftType, op, rightType)
    case Call(callee, args) =>
      if callee !in symbols then Err("Función '" + callee + "' no declarada")
      else
        var symbol := symbols[callee];
        if !symbol.isFunction then Err("'" + callee + "' no es una función")
        else if symbol.params.Some? && |args| != |symbol.params.value| then
          Err("Número incorrecto de argumentos para '" + callee + "'")
        else
          var _ :- if symbol.params.Some? then ArgsFrom(symbols, args, symbol.params.value, 0) else Ok(());
          Ok(symbol.typ)
    case Grouped(inner) => ExprType(symbols, inner)
  }

  /** The element loop of an array literal: elements `k..` against the first one's type. */
  function ElementsFrom(symbols: map<string, Symbol>, elements: seq<Expr>, first: Type, k: nat): Result<()>
    requires k <= |elements|
    decreases elements, |elements| - k
  {
    if k == |elements| then Ok(())
    else
      var t :- ExprType(symbols, elements[k]);
      if !IsCompatible(t, first) then Err("Elementos del array deben tener el mismo tipo")
      else ElementsFrom(symbols, elements, first, k + 1)
  }

  /** The argument loop of a call: arguments `k..` against their parameters' types. */
  function ArgsFrom(symbols: map<string, Symbol>, args: seq<Expr>, expected: seq<Type>, k: nat): Result<()>
    requires |args| == |expected| && k <= |args|
    decreases args, |args| - k
  {
    if k == |args| then Ok(())
    else
      var t :- ExprType(symbols, args[k]);
      if !IsCompatible(t, expected[k]) then Err("Tipo de argumento incorrecto")
      else ArgsFrom(symbols, args, expected, k + 1)
  }

  function VariableSymbol(name: string, t: Type): Symbol {
    Symbol(name, t, false, None)
  }

  /** The parameters of a function entered into the table, in order. */
  function InsertParams(symbols: map<string, Symbol>, params: seq<(string, Type)>): map<string, Symbol> {
    if params == [] then symbols
    else
      var last := params[|params| - 1];
      InsertParams(symbols, params[..|params| - 1])[last.0 := VariableSymbol(last.0, last.1)]
  }

  /** `analyze_statement`. */
  function CheckStmt(env: Env, s: Stmt): Result<Env>
    decreases s
  {
    match s
    case Let(name, annotation, value) =>
      var t :- ExprType(env.symbols, value);
      if annotation.Some? && !IsCompatible(t, annotation.value) then
        Err("Tipo incompatible en declaración de variable '" + name + "'")
      else
        var declared := if annotation.Some? then annotation.value else t;
        Ok(env.(symbols := env.symbols[name := VariableSymbol(name, declared)]))
    case Assign(target, value) =>
      if target !in env.symbols then Err("Variable '" + target + "' no declarada")
      else
        var t :- ExprType(env.symbols, value);
        if !IsCompatible(t, env.symbols[target].typ) then Err("Tipo incompatible en asignación a '" + target + "'")
        else Ok(env)
    case If(condition, thenBlock, elseBlock) =>
      var c :- ExprType(env.symbols, condition);
      if c != Bool then Err("Condición del if debe ser booleana")
      else
        var afterThen :- CheckBlock(env, thenBlock);
        (match elseBlock
         case NoElse => Ok(afterThen)
         case Else(stmts) => CheckBlock(afterThen, stmts))
    case While(condition, body) =>
      var c :- ExprType(env.symbols, condition);
      if c != Bool then Err("Condición del while debe ser booleana")
      else CheckBlock(env, body)
    case For(init, condition, increment, body) =>
      var afterInit :- CheckStmt(env, init);
      var c :- ExprType(afterInit.symbols, condition);
      if c != Bool then Err("Condición del for debe ser booleana")
      else
        var afterIncrement :- CheckStmt(afterInit, increment);
        CheckBlock(afterIncrement, body)
    case Function(name, params, returnType, body) =>
      var entered := Env(InsertParams(env.symbols, params), Some(name), Some(returnType));
      var after :- CheckBlock(entered, body);
      Ok(after.(currentFunction := None, currentReturnType := None))
    case Return(returned) =>
      if returned.Some? then
        var t :- ExprType(env.symbols, returned.value);
        if env.currentReturnType.Some? && !IsCompatible(t, env.currentReturnType.value) then
          Err("Tipo de retorno incompatible")
        else Ok(env)
      else if env.currentReturnType == Some(Void) then Ok(env)
      else Err("Función debe retornar un valor")
    case Expression(e) =>
      var _ :- ExprType(env.symbols, e);
      Ok(env)
    case Print(e) =>
      var _ :- ExprType(env.symbols, e);
      Ok(env)
  }

  /** The statements of a block, in order, up to the first error. */
  function CheckBlock(env: Env, stmts: seq<Stmt>): Result<Env>
    decreases stmts
  {
    if stmts == [] then Ok(env)
    else
      var next :- CheckStmt(env, stmts[0]);
      CheckBlock(next, stmts[1..])
  }

  function FunctionSymbol(name: string, params: seq<(string, Type)>, returnType: Type): Symbol {
    Symbol(name, returnType, true, Some(seq(|params|, i requires 0 <= i < |params| => params[i].1)))
  }

  /** The first pass of `analyze`: every top-level function's signature, in order. */
  function DeclareFunctions(symbols: map<string, Symbol>, stmts: seq<Stmt>): map<string, Symbol> {
    if stmts == [] then symbols
    else
      var front := DeclareFunctions(symbols, stmts[..|stmts| - 1]);
      var last := stmts[|stmts| - 1];
      if last.Function? then front[last.name := FunctionSymbol(last.name, last.params, last.returnType)]
      else front
  }

  /** `analyze`: signatures first, then every statement in order. */
  function CheckProgram(env: Env, program: Program): Result<Env> {
    CheckBlock(env.(symbols := DeclareFunctions(env.symbols, program.statements)), program.statements)
  }

  /** The built-in functions `SemanticAnalyzer::new` registers. */
  const Builtins: map<string, Symbol> :=
    map["print" := Symbol("print", Void, true, Some([Int]))]
      ["print_string" := Symbol("print_string", Void, true, Some([Type.String]))]
      ["len" := Symbol("len", Int, true, Some([Type.String]))]

  /** A statement method's outcome agrees with the specification: the new
      state on success, the message on failure (the state a failed analysis
      leaves is not specified). */
  predicate Outcome(got: Result<()>, now: Env, want: Result<Env>) {
    if want.Ok? then got == Ok(()) && now == want.value else got == Err(want.msg)
  }

  class SemanticAnalyzer {
    var symbols: map<string, Symbol>
    var currentFunction: Option<string>
    var currentReturnType: Option<Type>

    function State(): Env
      reads this
    {
      Env(symbols, currentFunction, currentReturnType)
    }

    /** `SemanticAnalyzer::new`. */
    constructor()
      ensures State() == Env(Builtins, None, None)
    {
      symbols := map[];
      currentFunction := None;
      currentReturnType := None;
      new;
      AddBuiltinFunction("print", [Int], Void);
      AddBuiltinFunction("print_string", [Type.String], Void);
      AddBuiltinFunction("len", [Type.String], Int);
    }

    /** `add_builtin_function`. */
    method AddBuiltinFunction(name: string, params: seq<Type>, returnType: Type)
      modifies this
      ensures symbols == old(symbols)[name := Symbol(name, returnType, true, Some(params))]
      ensures currentFunction == old(currentFunction) && currentReturnType == old(currentReturnType)
    {
      symbols := symbols[name := Symbol(name, returnType, true, Some(params))];
    }

    /** `analyze`. */
    method Analyze(program: Program) returns (r: Result<()>)
      modifies this
      ensures Outcome(r, State(), CheckProgram(old(State()), program))
    {
      var stmts := program.statements;
      var i := 0;
      while i < |stmts|
        invariant 0 <= i <= |stmts|
        invariant symbols == DeclareFunctions(old(symbols), stmts[..i])
        invariant currentFunction == old(currentFunction) && currentReturnType == old(currentReturnType)
      {
        assert stmts[..i + 1][..i] == stmts[..i];
        var stmt := stmts[i];
        if stmt.Function? {
          symbols := symbols[stmt.name := FunctionSymbol(stmt.name, stmt.params, stmt.returnType)];
        }
        i := i + 1;
      }
      assert stmts[..i] == stmts;
      r := AnalyzeBlock(stmts);
    }

    /** The statement loops of `analyze` and `analyze_statement`. */
    method AnalyzeBlock(stmts: seq<Stmt>) returns (r: Result<()>)
      modifies this
      ensures Outcome(r, State(), CheckBlock(old(State()), stmts))
      decreases stmts, 1
    {
      var i := 0;
      while i < |stmts|
        invariant 0 <= i <= |stmts|
        invariant CheckBlock(old(State()), stmts) == CheckBlock(State(), stmts[i..])
      {
        assert stmts[i..][0] == stmts[i] && stmts[i..][1..] == stmts[i + 1..];
        var _ :- AnalyzeStatement(stmts[i]);
        i := i + 1;
      }
      r := Ok(());
    }

    /** `analyze_statement`. */
    method AnalyzeStatement(stmt: Stmt) returns (r: Result<()>)
      modifies this
      ensures Outcome(r, State(), CheckStmt(old(State()), stmt))
      decreases stmt, 1
    {
      match stmt
      case Let(name, annotation, value) =>
        var t :- AnalyzeExpression(value);
        if annotation.Some? && !IsCompatible(t, annotation.value) {
          return Err("Tipo incompatible en declaración de variable '" + name + "'");
        }
        symbols := symbols[name := VariableSymbol(name, if annotation.Some? then annotation.value else t)];
        r := Ok(());
      case Assign(target, value) =>
        if target !in symbols {
          return Err("Variable '" + target + "' no declarada");
        }
        var t :- AnalyzeExpression(value);
        if !IsCompatible(t, symbols[target].typ) {
          return Err("Tipo incompatible en asignación a '" + target + "'");
        }
        r := Ok(());
      case If(condition, thenBlock, elseBlock) =>
        var c :- AnalyzeExpression(condition);
        if c != Bool {
          return Err("Condición del if debe ser booleana");
        }
        var _ :- AnalyzeBlock(thenBlock);
        if elseBlock.Else? {
          var _ :- AnalyzeBlock(elseBlock.stmts);
        }
        r := Ok(());
      case While(condition, body) =>
        var c :- AnalyzeExpression(condition);
        if c != Bool {
          return Err("Condición del while debe ser booleana");
        }
        r := AnalyzeBlock(body);
      case For(init, condition, increment, body) =>
        var _ :- AnalyzeStatement(init);
        var c :- AnalyzeExpression(condition);
        if c != Bool {
          return Err("Condición del for debe ser booleana");
        }
        var _ :- AnalyzeStatement(increment);
        r := AnalyzeBlock(body);
      case Function(name, params, returnType, body) =>
        r := AnalyzeFunction(name, params, returnType, body);
      case Return(returned) =>
        if returned.Some? {
          var t :- AnalyzeExpression(returned.value);
          if currentReturnType.Some? && !IsCompatible(t, currentReturnType.value) {
            return Err("Tipo de retorno incompatible");
          }
          r := Ok(());
        } else if currentReturnType == Some(Void) {
          r := Ok(());
        } else {
          r := Err("Función debe retornar un valor");
        }
      case Expression(e) =>
        var _ :- AnalyzeExpression(e);
        r := Ok(());
      case Print(e) =>
        var _ :- AnalyzeExpression(e);
        r := Ok(());
    }

    /** The `Function` arm of `analyze_statement`: the parameters enter the table,
        which keeps them after the body has been checked. */
    method AnalyzeFunction(name: string, params: seq<(string, Type)>, returnType: Type, body: seq<Stmt>)
      returns (r: Result<()>)
      modifies this
      ensures Outcome(r, State(), CheckStmt(old(State()), Function(name, params, returnType, body)))
      decreases Function(name, params, returnType, body), 0
    {
      currentFunction := Some(name);
      currentReturnType := Some(returnType);
      var i := 0;
      while i < |params|
        invariant 0 <= i <= |params|
        invariant symbols == InsertParams(old(symbols), params[..i])
        invariant currentFunction == Some(name) && currentReturnType == Some(returnType)
      {
        assert params[..i + 1][..i] == params[..i];
        symbols := symbols[params[i].0 := VariableSymbol(params[i].0, params[i].1)];
        i := i + 1;
      }
      assert params[..i] == params;
      var _ :- AnalyzeBlock(body);
      currentFunction := None;
      currentReturnType := None;
      r := Ok(());
    }

    /** `analyze_expression`: it reads the table and changes nothing. */
    method AnalyzeExpression(e: Expr) returns (r: Result<Type>)
      ensures r == ExprType(symbols, e)
      decreases e
    {
      match e
      case Number(_) => r := Ok(Int);
      case Boolean(_) => r := Ok(Bool);
      case String(_) => r := Ok(Type.String);
      case Ident(name) =>
        if name !in symbols {
          return Err("Variable '" + name + "' no declarada");
        }
        if symbols[name].isFunction {
          return Err("'" + name + "' es una función, no una variable");
        }
        r := Ok(symbols[name].typ);
      case ArrayLiteral(elements) =>
        if |elements| == 0 {
          return Ok(Array(Int));
        }
        var first :- AnalyzeExpression(elements[0]);
        var i := 1;
        while i < |elements|
          invariant 1 <= i <= |elements|
          invariant ElementsFrom(symbols, elements, first, 1) == ElementsFrom(symbols, elements, first, i)
        {
          var t :- AnalyzeExpression(elements[i]);
          if !IsCompatible(t, first) {
            return Err("Elementos del array deben tener el mismo tipo");
          }
          i := i + 1;
        }
        r := Ok(Array(first));
      case ArrayIndex(indexed, index) =>
        var arrayType :- AnalyzeExpression(indexed);
        var indexType :- AnalyzeExpression(index);
        if indexType != Int {
          return Err("Índice de array debe ser entero");
        }
        if arrayType.Array? {
          r := Ok(arrayType.elem);
        } else {
          r := Err("No es un array");
        }
      case Infix(left, op, right) =>
        var leftType :- AnalyzeExpression(left);
        var rightType :- AnalyzeExpression(right);
        r := InfixType(leftType, op, rightType);
      case Call(callee, args) =>
        if callee !in symbols {
          return Err("Función '" + callee + "' no declarada");
        }
        var symbol := symbols[callee];
        if !symbol.isFunction {
          return Err("'" + callee + "' no es una función");
        }
        if symbol.params.Some? {
          var expected := symbol.params.value;
          if |args| != |expected| {
            return Err("Número incorrecto de argumentos para '" + callee + "'");
          }
          var i := 0;
          while i < |args|
            invariant 0 <= i <= |args|
            invariant ArgsFrom(symbols, args, expected, 0) == ArgsFrom(symbols, args, expected, i)
          {
            var t :- AnalyzeExpression(args[i]);
            if !IsCompatible(t, expected[i]) {
              return Err("Tipo de argumento incorrecto");
            }
            i := i + 1;
          }
        }
        r := Ok(symbol.typ);
      case Grouped(inner) =>
        r := AnalyzeExpression(inner);
    }
  }

  // ----- Properties -----

  /** A name types as a variable exactly when it is declared and is not a
      function; a function's name used as a value is an error. */
  lemma IdentTyping(symbols: map<string, Symbol>, name: string, t: Type)
    ensures ExprType(symbols, Ident(name)) == Ok(t) <==>
      name in symbols && !symbols[name].isFunction && symbols[name].typ == t
    ensures name in symbols && symbols[name].isFunction ==>
      ExprType(symbols, Ident(name)) == Err("'" + name + "' es una función, no una variable")
    ensures name !in symbols ==> ExprType(symbols, Ident(name)) == Err("Variable '" + name + "' no declarada")
  {
  }

  lemma {:induction false} ElementsFromIff(symbols: map<string, Symbol>, elements: seq<Expr>, first: Type, k: nat)
    requires k <= |elements|
    ensures ElementsFrom(symbols, elements, first, k).Ok? <==>
      forall i :: k <= i < |elements| ==> ExprType(symbols, elements[i]) == Ok(first)
    decreases |elements| - k
  {
    if k < |elements| {
      var t := ExprType(symbols, elements[k]);
      if t.Ok? {
        CompatibleIffEqual(t.value, first);
      }
      ElementsFromIff(symbols, elements, first, k + 1);
    }
  }

  /** An array literal has type `[T]` exactly when every element has type `T`;
      the empty literal is `[int]`. */
  lemma ArrayLiteralTyping(symbols: map<string, Symbol>, elements: seq<Expr>, t: Type)
    ensures ExprType(symbols, ArrayLiteral(elements)) == Ok(t) <==>
      t.Array? && (|elements| == 0 ==> t.elem == Int) &&
      forall i :: 0 <= i < |elements| ==> ExprType(symbols, elements[i]) == Ok(t.elem)
  {
    if |elements| > 0 {
      var first := ExprType(symbols, elements[0]);
      if first.Ok? {
        ElementsFromIff(symbols, elements, first.value, 1);
      }
    }
  }

  /** An index expression has the element type of the array it indexes, and
      the index must be an `int`. */
  lemma IndexTyping(symbols: map<string, Symbol>, indexed: Expr, index: Expr, t: Type)
    ensures ExprType(symbols, ArrayIndex(indexed, index)) == Ok(t) <==>
      ExprType(symbols, indexed) == Ok(Array(t)) && ExprType(symbols, index) == Ok(Int)
  {
  }

  /** Arithmetic is on two `int`s, or `+` with a string on the left whatever
      the right operand's type; comparisons are between two equal scalar types. */
  lemma InfixTyping(symbols: map<string, Symbol>, left: Expr, op: string, right: Expr, t: Type)
    ensures var l := ExprType(symbols, left);
      var r := ExprType(symbols, right);
      ExprType(symbols, Infix(left, op, right)) == Ok(t) <==>
        l.Ok? && r.Ok? &&
        ((IsArithmetic(op) && l.value == Int && r.value == Int && t == Int) ||
         (op == "+" && l.value == Type.String && t == Type.String) ||
         (IsComparison(op) && l.value == r.value && t == Bool &&
          (l.value == Int || l.value == Bool || l.value == Type.String)))
  {
    var l := ExprType(symbols, left);
    var r := ExprType(symbols, right);
    if l.Ok? && r.Ok? {
      ComparableExactly(l.value, r.value);
    }
  }

  lemma {:induction false} ArgsFromIff(symbols: map<string, Symbol>, args: seq<Expr>, expected: seq<Type>, k: nat)
    requires |args| == |expected| && k <= |args|
    ensures ArgsFrom(symbols, args, expected, k).Ok? <==>
      forall i :: k <= i < |args| ==> ExprType(symbols, args[i]) == Ok(expected[i])
    decreases |args| - k
  {
    if k < |args| {
      var t := ExprType(symbols, args[k]);
      if t.Ok? {
        CompatibleIffEqual(t.value, expected[k]);
      }
      ArgsFromIff(symbols, args, expected, k + 1);
    }
  }

  /** A call has its function's return type exactly when the callee is a
      declared function and the arguments match its parameters in number and
      in type, position by position. */
  lemma CallTyping(symbols: map<string, Symbol>, callee: string, args: seq<Expr>, t: Type)
    ensures ExprType(symbols, Call(callee, args)) == Ok(t) <==>
      callee in symbols && symbols[callee].isFunction && symbols[callee].typ == t &&
      (symbols[callee].params.Some? ==>
        |args| == |symbols[callee].params.value| &&
        forall i :: 0 <= i < |args| ==> ExprType(symbols, args[i]) == Ok(symbols[callee].params.value[i]))
  {
    if callee in symbols && symbols[callee].params.Some? && |args| == |symbols[callee].params.value| {
      ArgsFromIff(symbols, args, symbols[callee].params.value, 0);
    }
  }

  /** The three ways a call fails before its arguments are looked at. */
  lemma CallErrors(symbols: map<string, Symbol>, callee: string, args: seq<Expr>)
    ensures callee !in symbols ==> ExprType(symbols, Call(callee, args)) == Err("Función '" + callee + "' no declarada")
    ensures callee in symbols && !symbols[callee].isFunction ==>
      ExprType(symbols, Call(callee, args)) == Err("'" + callee + "' no es una función")
    ensures callee in symbols && symbols[callee].isFunction && symbols[callee].params.Some? &&
            |args| != |symbols[callee].params.value| ==>
      ExprType(symbols, Call(callee, args)) == Err("Número incorrecto de argumentos para '" + callee + "'")
  {
  }

  /** The built-ins: `print` takes an `int`, `print_string` and `len` a string. */
  lemma BuiltinCalls(arg: Expr)
    ensures ExprType(Builtins, Call("print", [arg])) == Ok(Void) <==> ExprType(Builtins, arg) == Ok(Int)
    ensures ExprType(Builtins, Call("print_string", [arg])) == Ok(Void) <==> ExprType(Builtins, arg) == Ok(Type.String)
    ensures ExprType(Builtins, Call("len", [arg])) == Ok(Int) <==> ExprType(Builtins, arg) == Ok(Type.String)
  {
    CallTyping(Builtins, "print", [arg], Void);
    CallTyping(Builtins, "print_string", [arg], Void);
    CallTyping(Builtins, "len", [arg], Int);
  }

  /** `let` accepts an annotation only when it is the value's type, so the name
      is always entered with the type of its value. */
  lemma LetRule(env: Env, name: string, annotation: Option<Type>, value: Expr)
    ensures var t := ExprType(env.symbols, value);
      CheckStmt(env, Let(name, annotation, value)).Ok? <==>
        t.Ok? && (annotation.Some? ==> annotation.value == t.value)
    ensures var t := ExprType(env.symbols, value);
      CheckStmt(env, Let(name, annotation, value)).Ok? ==>
        CheckStmt(env, Let(name, annotation, value)).value ==
          env.(symbols := env.symbols[name := VariableSymbol(name, t.value)])
  {
    var t := ExprType(env.symbols, value);
    if t.Ok? && annotation.Some? {
      CompatibleIffEqual(t.value, annotation.value);
    }
  }

  /** Outside a function a bare `return;` is an error, while `return e;` is
      accepted whatever the type of `e`; inside one, `return e;` must have the
      declared return type and `return;` needs a `void` function. */
  lemma ReturnRule(env: Env, e: Expr)
    ensures CheckStmt(env, Return(None)).Ok? <==> env.currentReturnType == Some(Void)
    ensures env.currentReturnType == None ==>
      (CheckStmt(env, Return(Some(e))).Ok? <==> ExprType(env.symbols, e).Ok?)
    ensures env.currentReturnType.Some? ==>
      (CheckStmt(env, Return(Some(e))).Ok? <==> ExprType(env.symbols, e) == Ok(env.currentReturnType.value))
  {
    var t := ExprType(env.symbols, e);
    if t.Ok? && env.currentReturnType.Some? {
      CompatibleIffEqual(t.value, env.currentReturnType.value);
    }
  }

  /** The condition of an `if` must have type `bool`; one of any other type is
      an error whatever the blocks hold. */
  lemma IfConditionRule(env: Env, c: Expr, tb: seq<Stmt>, eb: ElseBlock)
    ensures CheckStmt(env, If(c, tb, eb)).Ok? ==> ExprType(env.symbols, c) == Ok(Bool)
    ensures ExprType(env.symbols, c).Ok? && ExprType(env.symbols, c).value != Bool ==>
      CheckStmt(env, If(c, tb, eb)) == Err("Condición del if debe ser booleana")
  {
  }

  /** The same for the condition of a `while`. */
  lemma WhileConditionRule(env: Env, c: Expr, body: seq<Stmt>)
    ensures CheckStmt(env, While(c, body)).Ok? ==> ExprType(env.symbols, c) == Ok(Bool)
    ensures ExprType(env.symbols, c).Ok? && ExprType(env.symbols, c).value != Bool ==>
      CheckStmt(env, While(c, body)) == Err("Condición del while debe ser booleana")
  {
  }

  /** The condition of a `for` is checked after its init statement, in the table
      that statement leaves, and must have type `bool`. */
  lemma ForConditionRule(env: Env, init: Stmt, c: Expr, inc: Stmt, body: seq<Stmt>)
    ensures CheckStmt(env, For(init, c, inc, body)).Ok? ==>
      CheckStmt(env, init).Ok? && ExprType(CheckStmt(env, init).value.symbols, c) == Ok(Bool)
  {
  }

  /** An assignment needs a declared target of the value's type and changes
      nothing in the table. */
  lemma AssignRule(env: Env, target: string, value: Expr)
    ensures CheckStmt(env, Assign(target, value)).Ok? <==>
      target in env.symbols && ExprType(env.symbols, value) == Ok(env.symbols[target].typ)
    ensures CheckStmt(env, Assign(target, value)).Ok? ==> CheckStmt(env, Assign(target, value)).value == env
    ensures target !in env.symbols ==>
      CheckStmt(env, Assign(target, value)) == Err("Variable '" + target + "' no declarada")
  {
    var t := ExprType(env.symbols, value);
    if target in env.symbols && t.Ok? {
      CompatibleIffEqual(t.value, env.symbols[target].typ);
    }
  }

  /** Entering the parameters adds exactly their names, each as a variable;
      every other name keeps its entry. */
  lemma {:induction false} InsertParamsContents(symbols: map<string, Symbol>, params: seq<(string, Type)>)
    ensures forall i :: 0 <= i < |params| ==>
      params[i].0 in InsertParams(symbols, params) && !InsertParams(symbols, params)[params[i].0].isFunction
    ensures forall k :: k in symbols ==> k in InsertParams(symbols, params)
    ensures forall k :: k in InsertParams(symbols, params) && k !in symbols ==>
      exists i :: 0 <= i < |params| && params[i].0 == k
    decreases |params|
  {
    if params != [] {
      var front := params[..|params| - 1];
      InsertParamsContents(symbols, front);
      var out := InsertParams(symbols, params);
      forall k | k in out && k !in symbols
        ensures exists i :: 0 <= i < |params| && params[i].0 == k
      {
        if k != params[|params| - 1].0 {
          var i :| 0 <= i < |front| && front[i].0 == k;
          assert params[i].0 == k;
        }
      }
    }
  }

  /** The symbol table only grows: no statement removes a name. */
  lemma {:induction false} StmtKeepsNames(env: Env, s: Stmt)
    ensures var r := CheckStmt(env, s);
      r.Ok? ==> env.symbols.Keys <= r.value.symbols.Keys
    decreases s
  {
    match s
    case If(condition, thenBlock, elseBlock) =>
      if CheckStmt(env, s).Ok? {
        BlockKeepsNames(env, thenBlock);
        var afterThen := CheckBlock(env, thenBlock).value;
        match elseBlock
        case NoElse =>
        case Else(stmts) => BlockKeepsNames(afterThen, stmts);
      }
    case While(_, body) =>
      BlockKeepsNames(env, body);
    case For(init, condition, increment, body) =>
      StmtKeepsNames(env, init);
      var afterInit := CheckStmt(env, init);
      if afterInit.Ok? {
        StmtKeepsNames(afterInit.value, increment);
        var afterIncrement := CheckStmt(afterInit.value, increment);
        if afterIncrement.Ok? {
          BlockKeepsNames(afterIncrement.value, body);
        }
      }
    case Function(name, params, returnType, body) =>
      InsertParamsContents(env.symbols, params);
      BlockKeepsNames(Env(InsertParams(env.symbols, params), Some(name), Some(returnType)), body);
    case _ =>
  }

  lemma {:induction false} BlockKeepsNames(env: Env, stmts: seq<Stmt>)
    ensures var r := CheckBlock(env, stmts);
      r.Ok? ==> env.symbols.Keys <= r.value.symbols.Keys
    decreases stmts
  {
    if stmts != [] {
      StmtKeepsNames(env, stmts[0]);
      var next := CheckStmt(env, stmts[0]);
      if next.Ok? {
        BlockKeepsNames(next.value, stmts[1..]);
      }
    }
  }

  /** After a function declaration the analyzer is back at the top level, and
      the parameters stay declared. */
  lemma FunctionLeavesScope(env: Env, name: string, params: seq<(string, Type)>, returnType: Type, body: seq<Stmt>)
    ensures var r := CheckStmt(env, Function(name, params, returnType, body));
      r.Ok? ==>
        r.value.currentFunction == None && r.value.currentReturnType == None &&
        env.symbols.Keys <= r.value.symbols.Keys &&
        forall i :: 0 <= i < |params| ==> params[i].0 in r.value.symbols
  {
    InsertParamsContents(env.symbols, params);
    BlockKeepsNames(Env(InsertParams(env.symbols, params), Some(name), Some(returnType)), body);
  }

  /** `stmts` holds a top-level function named `name`. */
  predicate Declares(stmts: seq<Stmt>, name: string) {
    exists i :: 0 <= i < |stmts| && stmts[i].Function? && stmts[i].name == name
  }

  /** The first pass of `analyze` enters a function symbol for every top-level
      function, so a call may appear before the declaration it calls; every
      other name keeps its entry. */
  lemma {:induction false} DeclareFunctionsContents(symbols: map<string, Symbol>, stmts: seq<Stmt>)
    ensures forall k :: k in DeclareFunctions(symbols, stmts) <==> k in symbols || Declares(stmts, k)
    ensures forall k :: Declares(stmts, k) ==> DeclareFunctions(symbols, stmts)[k].isFunction
    ensures forall k :: k in symbols && !Declares(stmts, k) ==> DeclareFunctions(symbols, stmts)[k] == symbols[k]
    decreases |stmts|
  {
    if stmts != [] {
      var front := stmts[..|stmts| - 1];
      var last := stmts[|stmts| - 1];
      DeclareFunctionsContents(symbols, front);
      forall k
        ensures Declares(stmts, k) <==> Declares(front, k) || (last.Function? && last.name == k)
      {
        if Declares(stmts, k) {
          var i :| 0 <= i < |stmts| && stmts[i].Function? && stmts[i].name == k;
          if i < |front| {
            assert front[i] == stmts[i];
          }
        }
        if Declares(front, k) {
          var i :| 0 <= i < |front| && front[i].Function? && front[i].name == k;
          assert stmts[i] == front[i];
        }
      }
    }
  }
}
