/** The syntax tree the parser builds and every later stage consumes
    (Compilador/src/parser/ast.rs). */
module Ast {
  import opened Wrappers

  const I64_MIN: int := -0x8000_0000_0000_0000
  const I64_MAX: int := 0x7FFF_FFFF_FFFF_FFFF

  /** Rust's `i64`. */
  type i64 = x: int | I64_MIN <= x <= I64_MAX

  /** A source-level type. The derived `PartialEq` of the Rust enum is Dafny's
      structural equality on this datatype. */
  datatype Type = Int | Bool | String | Array(elem: Type) | Void

  datatype Expr =
    | Number(n: i64)
    | Boolean(b: bool)
    | String(s: string)
    | Ident(ident: string)
    | ArrayLiteral(elements: seq<Expr>)
    | ArrayIndex(array: Expr, index: Expr)
    | Infix(left: Expr, op: string, right: Expr)
    | Call(callee: string, args: seq<Expr>)
    | Grouped(inner: Expr)

  datatype Stmt =
    | Let(name: string, typeAnnotation: Option<Type>, value: Expr)
    | Assign(target: string, value: Expr)
    | If(condition: Expr, thenBlock: seq<Stmt>, elseBlock: ElseBlock)
    | While(condition: Expr, body: seq<Stmt>)
    | For(init: Stmt, condition: Expr, increment: Stmt, body: seq<Stmt>)
    | Function(name: string, params: seq<(string, Type)>, returnType: Type, body: seq<Stmt>)
    | Return(returned: Option<Expr>)
    | Expression(expr: Expr)
    | Print(expr: Expr)

  /** `Option<Vec<Statement>>` of an `if`, spelled out so that termination
      arguments can see that the statements are smaller than the `if`. */
  datatype ElseBlock = NoElse | Else(stmts: seq<Stmt>)

  datatype Program = Program(statements: seq<Stmt>)
}
