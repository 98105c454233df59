/** The recursive-descent parser (Compilador/src/parser/mod.rs). Its state is the
    lexer's cursor together with the current token. Each parse routine is first
    stated as a function from a state to a result and a new state (the
    specification); the `Parser` class follows these functions exactly.

    Termination: every successful parse routine consumes tokens. `Measure`
    counts two per character left to read, plus one while the current token
    is not `Eof`. Reading a token never increases it, and a read from a
    non-`Eof` token decreases it. */
module Parser {
  import opened Wrappers
  import opened Decimal
  import Ast
  import opened Lexer

  /** The lexer cursor and the current token. */
  datatype PState = PState(pos: nat, cur: Token)

  predicate Inv(input: string, s: PState) {
    s.pos <= |input|
  }

  function Measure(input: string, s: PState): nat
    requires s.pos <= |input|
  {
    2 * (|input| - s.pos) + (if s.cur != Eof then 1 else 0)
  }

  /** `s'` is a state reachable from `s` by reading tokens. */
  predicate Below(input: string, s': PState, s: PState)
    requires s.pos <= |input|
  {
    s'.pos <= |input| && Measure(input, s') <= Measure(input, s)
  }

  predicate StrictlyBelow(input: string, s': PState, s: PState)
    requires s.pos <= |input|
  {
    s'.pos <= |input| && Measure(input, s') < Measure(input, s)
  }

  /** `Parser::next_token`: the current token becomes the lexer's next one. */
  function Advance(input: string, s: PState): (r: Result<PState>)
    requires Inv(input, s)
    ensures r.Ok? ==> Below(input, r.value, s)
    ensures r.Ok? && s.cur != Eof ==> StrictlyBelow(input, r.value, s)
  {
    ScanOutcome(input, s.pos);
    var step := Scan(input, s.pos);
    if step.token.Err? then Err(step.token.msg) else Ok(PState(step.next, step.token.value))
  }

  /** The `{:?}` text of a token. String payloads are shown between quotes, without escaping. */
  function TokenDebug(t: Token): string {
    match t
    case Ident(name) => "Ident(\"" + name + "\")"
    case Number(n) => "Number(" + IntToString(n) + ")"
    case String(text) => "String(\"" + text + "\")"
    case Let => "Let"
    case Fn => "Fn"
    case If => "If"
    case Else => "Else"
    case While => "While"
    case For => "For"
    case Return => "Return"
    case True => "True"
    case False => "False"
    case Print => "Print"
    case Eq => "Eq"
    case EqEq => "EqEq"
    case NotEq => "NotEq"
    case Lt => "Lt"
    case LtEq => "LtEq"
    case Gt => "Gt"
    case GtEq => "GtEq"
    case Plus => "Plus"
    case Minus => "Minus"
    case Star => "Star"
    case Slash => "Slash"
    case Semicolon => "Semicolon"
    case Comma => "Comma"
    case Colon => "Colon"
    case LParen => "LParen"
    case RParen => "RParen"
    case LBrace => "LBrace"
    case RBrace => "RBrace"
    case LBracket => "LBracket"
    case RBracket => "RBracket"
    case Eof => "Eof"
  }

  /** `expect_token`: checks the current token and reads nothing. */
  function Expect(s: PState, expected: Token): (r: Result<()>)
    ensures r.Ok? <==> s.cur == expected
  {
    if s.cur == expected then Ok(())
    else Err("Se esperaba " + TokenDebug(expected) + ", encontrado " + TokenDebug(s.cur))
  }

  /** `current_op`. */
  function OperatorText(t: Token): Option<string> {
    match t
    case Plus => Some("+")
    case Minus => Some("-")
    case Star => Some("*")
    case Slash => Some("/")
    case EqEq => Some("==")
    case NotEq => Some("!=")
    case Lt => Some("<")
    case Gt => Some(">")
    case LtEq => Some("<=")
    case GtEq => Some(">=")
    case _ => None
  }

  /** `current_precedence`. */
  function Precedence(t: Token): nat {
    match t
    case EqEq => 1
    case NotEq => 1
    case Lt => 1
    case Gt => 1
    case LtEq => 1
    case GtEq => 1
    case Plus => 2
    case Minus => 2
    case Star => 3
    case Slash => 3
    case _ => 0
  }

  const UnwrapNone: string := "called `Option::unwrap()` on a `None` value"

  /** `parse_type`. A type name is recognised without reading past it. */
  function TypeAt(input: string, s: PState): (r: Result<(Ast.Type, PState)>)
    requires Inv(input, s)
    ensures r.Ok? ==> Below(input, r.value.1, s)
    decreases Measure(input, s)
  {
    match s.cur
    case Ident(name) =>
      if name == "int" then Ok((Ast.Int, s))
      else if name == "bool" then Ok((Ast.Bool, s))
      else if name == "string" then Ok((Ast.Type.String, s))
      else if name == "void" then Ok((Ast.Void, s))
      else Err("Tipo desconocido: " + name)
    case LBracket =>
      var s1 :- Advance(input, s);
      var inner :- TypeAt(input, s1);
      var _ :- Expect(inner.1, RBracket);
      Ok((Ast.Array(inner.0), inner.1))
    case _ => Err("Se esperaba tipo")
  }

  /** `parse_primary`: it always reads the token it starts on. */
  function PrimaryAt(input: string, s: PState): (r: Result<(Ast.Expr, PState)>)
    requires Inv(input, s)
    ensures r.Ok? ==> StrictlyBelow(input, r.value.1, s)
    ensures r.Ok? ==> Precedence(s.cur) == 0 && !r.value.0.Infix?
    decreases Measure(input, s), 1
  {
    if Literal(s.cur).Some? then
      var s1 :- Advance(input, s);
      Ok((Literal(s.cur).value, s1))
    else match s.cur
    case Ident(name) =>
      var s1 :- Advance(input, s);
      CallAt(input, s1, name)
    case LBracket =>
      var s1 :- Advance(input, s);
      ArrayAt(input, s1)
    case LParen =>
      var s1 :- Advance(input, s);
      GroupedAt(input, s1)
    case _ => Err("Expresión no válida: " + TokenDebug(s.cur))
  }

  /** The expression a number, boolean or string token stands for by itself. */
  function Literal(t: Token): (r: Option<Ast.Expr>)
    ensures r.Some? <==> t.Number? || t.True? || t.False? || t.String?
    ensures r.Some? ==> Precedence(t) == 0 && !r.value.Infix?
  {
    match t
    case Number(n) => Some(Ast.Number(n))
    case True => Some(Ast.Boolean(true))
    case False => Some(Ast.Boolean(false))
    case String(text) => Some(Ast.Expr.String(text))
    case _ => None
  }

  /** After an identifier: a call when `(` follows, the bare name otherwise. */
  function CallAt(input: string, s: PState, name: string): (r: Result<(Ast.Expr, PState)>)
    requires Inv(input, s)
    ensures r.Ok? ==> Below(input, r.value.1, s) && (r.value.0.Ident? || r.value.0.Call?)
    decreases Measure(input, s), 4
  {
    if s.cur == LParen then
      var s1 :- Advance(input, s);
      var args :- ListAt(input, s1, RParen, []);
      var _ :- Expect(args.1, RParen);
      var s2 :- Advance(input, args.1);
      Ok((Ast.Expr.Call(name, args.0), s2))
    else Ok((Ast.Ident(name), s))
  }

  /** An array literal after its `[`. */
  function ArrayAt(input: string, s: PState): (r: Result<(Ast.Expr, PState)>)
    requires Inv(input, s)
    ensures r.Ok? ==> StrictlyBelow(input, r.value.1, s) && r.value.0.ArrayLiteral?
    decreases Measure(input, s), 4
  {
    var elements :- ListAt(input, s, RBracket, []);
    var _ :- Expect(elements.1, RBracket);
    var s1 :- Advance(input, elements.1);
    Ok((Ast.ArrayLiteral(elements.0), s1))
  }

  /** A parenthesized expression after its `(`. */
  function GroupedAt(input: string, s: PState): (r: Result<(Ast.Expr, PState)>)
    requires Inv(input, s)
    ensures r.Ok? ==> StrictlyBelow(input, r.value.1, s) && r.value.0.Grouped?
    decreases Measure(input, s), 3
  {
    var inner :- ExpressionAt(input, s, 0);
    var _ :- Expect(inner.1, RParen);
    var s1 :- Advance(input, inner.1);
    Ok((Ast.Grouped(inner.0), s1))
  }

  /** The argument and element loops: expressions up to `closing`, each
      optionally followed by a comma. The closing token is left current. */
  function ListAt(input: string, s: PState, closing: Token, acc: seq<Ast.Expr>): (r: Result<(seq<Ast.Expr>, PState)>)
    requires Inv(input, s)
    ensures r.Ok? ==> Below(input, r.value.1, s)
    decreases Measure(input, s), 3
  {
    if s.cur != closing then
      var item :- ExpressionAt(input, s, 0);
      var s1 :- if item.1.cur == Comma then Advance(input, item.1) else Ok(item.1);
      ListAt(input, s1, closing, acc + [item.0])
    else Ok((acc, s))
  }

  /** `parse_expression(precedence)`. */
  function ExpressionAt(input: string, s: PState, precedence: nat): (r: Result<(Ast.Expr, PState)>)
    requires Inv(input, s)
    ensures r.Ok? ==> StrictlyBelow(input, r.value.1, s) && Precedence(s.cur) == 0
    decreases Measure(input, s), 2
  {
    var first :- PrimaryAt(input, s);
    InfixLoop(input, first.1, precedence, first.0)
  }

  /** The loop of `parse_expression`: while the current token binds tighter than
      `precedence` (only operators have a positive precedence), read the
      operator and parse the right operand at the precedence of the token that
      follows the operator. */
  function InfixLoop(input: string, s: PState, precedence: nat, left: Ast.Expr): (r: Result<(Ast.Expr, PState)>)
    requires Inv(input, s)
    ensures r.Ok? ==> Below(input, r.value.1, s)
    decreases Measure(input, s), 1
  {
    if precedence < Precedence(s.cur) then
      var step :- InfixStep(input, s, left);
      InfixLoop(input, step.1, precedence, step.0)
    else Ok((left, s))
  }

  /** One pass of the operator loop: the operator is read, then the right operand
      at the precedence of the token that follows the operator. */
  function InfixStep(input: string, s: PState, left: Ast.Expr): (r: Result<(Ast.Expr, PState)>)
    requires Inv(input, s) && Precedence(s.cur) > 0
    ensures r.Ok? ==> StrictlyBelow(input, r.value.1, s)
    decreases Measure(input, s), 0
  {
    PrecedenceIffOperator(s.cur);
    var op := OperatorText(s.cur).value;
    var s1 :- Advance(input, s);
    var right :- ExpressionAt(input, s1, Precedence(s1.cur));
    Ok((Ast.Infix(left, op, right.0), right.1))
  }

  /** `parse_statement`: `Ok(None)` only at `Eof`. */
  function StatementAt(input: string, s: PState): (r: Result<(Option<Ast.Stmt>, PState)>)
    requires Inv(input, s)
    ensures r.Ok? ==> Below(input, r.value.1, s)
    ensures r.Ok? && s.cur != Eof ==> StrictlyBelow(input, r.value.1, s)
    decreases Measure(input, s), 5
  {
    match s.cur
    case Let => LetAt(input, s)
    case If => IfAt(input, s)
    case While => WhileAt(input, s)
    case For => ForAt(input, s)
    case Fn => FunctionAt(input, s)
    case Return => ReturnAt(input, s)
    case Print => PrintAt(input, s)
    case Eof => Ok((None, s))
    case _ => ExpressionStatementAt(input, s)
  }

  /** An expression statement: an expression and its `;`, which is left current. */
  function ExpressionStatementAt(input: string, s: PState): (r: Result<(Option<Ast.Stmt>, PState)>)
    requires Inv(input, s)
    ensures r.Ok? ==> StrictlyBelow(input, r.value.1, s) && r.value.1.cur == Semicolon
    decreases Measure(input, s), 4
  {
    var e :- ExpressionAt(input, s, 0);
    var _ :- Expect(e.1, Semicolon);
    Ok((Some(Ast.Expression(e.0)), e.1))
  }

  /** `parse_let_statement`, started on `let`. */
  function LetAt(input: string, s: PState): (r: Result<(Option<Ast.Stmt>, PState)>)
    requires Inv(input, s) && s.cur == Let
    ensures r.Ok? ==> StrictlyBelow(input, r.value.1, s) && r.value.1.cur == Semicolon
    decreases Measure(input, s), 4
  {
    var s1 :- Advance(input, s);
    if !s1.cur.Ident? then Err("Se esperaba identificador después de 'let'")
    else
      var s2 :- Advance(input, s1);
      var annotation :- AnnotationAt(input, s2);
      LetValueAt(input, annotation.1, s1.cur.name, annotation.0)
  }

  /** The rest of `parse_let_statement` once the annotation is read: `=`, the
      value and `;`. */
  function LetValueAt(input: string, s: PState, name: string, annotation: Option<Ast.Type>)
    : (r: Result<(Option<Ast.Stmt>, PState)>)
    requires Inv(input, s)
    ensures r.Ok? ==> StrictlyBelow(input, r.value.1, s) && r.value.1.cur == Semicolon
  {
    var _ :- Expect(s, Eq);
    var s1 :- Advance(input, s);
    var value :- ExpressionAt(input, s1, 0);
    var _ :- Expect(value.1, Semicolon);
    Ok((Some(Ast.Let(name, annotation, value.0)), value.1))
  }

  /** The optional `: type` of a `let`: the colon is read, the type parsed, and
      one more token read. */
  function AnnotationAt(input: string, s: PState): (r: Result<(Option<Ast.Type>, PState)>)
    requires Inv(input, s)
    ensures r.Ok? ==> Below(input, r.value.1, s)
  {
    if s.cur == Colon then
      var s1 :- Advance(input, s);
      var t :- TypeAt(input, s1);
      var s2 :- Advance(input, t.1);
      Ok((Some(t.0), s2))
    else Ok((None, s))
  }

  /** The shared opening of `if`, `while` and `print`: the keyword and `(` are
      read, then the expression is parsed, and `)` is read. */
  function HeaderAt(input: string, s: PState): (r: Result<(Ast.Expr, PState)>)
    requires Inv(input, s) && s.cur != Eof
    ensures r.Ok? ==> StrictlyBelow(input, r.value.1, s)
    decreases Measure(input, s), 3
  {
    var s1 :- Advance(input, s);
    var _ :- Expect(s1, LParen);
    var s2 :- Advance(input, s1);
    var condition :- ExpressionAt(input, s2, 0);
    var _ :- Expect(condition.1, RParen);
    var s3 :- Advance(input, condition.1);
    Ok((condition.0, s3))
  }

  /** `parse_if_statement`, started on `if`. */
  function IfAt(input: string, s: PState): (r: Result<(Option<Ast.Stmt>, PState)>)
    requires Inv(input, s) && s.cur == If
    ensures r.Ok? ==> StrictlyBelow(input, r.value.1, s)
    decreases Measure(input, s), 4
  {
    var header :- HeaderAt(input, s);
    var thenBlock :- BlockAt(input, header.1);
    var elseBlock :- ElseAt(input, thenBlock.1);
    Ok((Some(Ast.If(header.0, thenBlock.0, elseBlock.0)), elseBlock.1))
  }

  /** The optional `else` block of an `if`, looked for after the then-block. */
  function ElseAt(input: string, s: PState): (r: Result<(Ast.ElseBlock, PState)>)
    requires Inv(input, s)
    ensures r.Ok? ==> Below(input, r.value.1, s)
    decreases Measure(input, s), 5
  {
    if s.cur == Else then
      var s1 :- Advance(input, s);
      var elseBlock :- BlockAt(input, s1);
      Ok((Ast.Else(elseBlock.0), elseBlock.1))
    else Ok((Ast.NoElse, s))
  }

  /** `parse_while_statement`, started on `while`. */
  function WhileAt(input: string, s: PState): (r: Result<(Option<Ast.Stmt>, PState)>)
    requires Inv(input, s) && s.cur == While
    ensures r.Ok? ==> StrictlyBelow(input, r.value.1, s) && r.value.1.cur == RBrace
    decreases Measure(input, s), 4
  {
    var header :- HeaderAt(input, s);
    var body :- BlockAt(input, header.1);
    Ok((Some(Ast.While(header.0, body.0)), body.1))
  }

  /** `parse_for_statement`, started on `for`. A missing statement, which
      `unwrap` turns into a panic, is an error with the panic's message. */
  function ForAt(input: string, s: PState): (r: Result<(Option<Ast.Stmt>, PState)>)
    requires Inv(input, s) && s.cur == For
    ensures r.Ok? ==> StrictlyBelow(input, r.value.1, s)
    decreases Measure(input, s), 4
  {
    var s1 :- Advance(input, s);
    var _ :- Expect(s1, LParen);
    var s2 :- Advance(input, s1);
    var init :- StatementAt(input, s2);
    if init.0.None? then Err(UnwrapNone)
    else ForCondition(input, init.1, init.0.value)
  }

  /** The condition of a `for`, once its initial statement is parsed. */
  function ForCondition(input: string, s: PState, init: Ast.Stmt): (r: Result<(Option<Ast.Stmt>, PState)>)
    requires Inv(input, s)
    ensures r.Ok? ==> Below(input, r.value.1, s)
    decreases Measure(input, s), 7
  {
    var s1 :- Advance(input, s);
    var condition :- ExpressionAt(input, s1, 0);
    var _ :- Expect(condition.1, Semicolon);
    var s2 :- Advance(input, condition.1);
    ForTail(input, s2, init, condition.0)
  }

  /** The increment and body of a `for`, once its condition's `;` is read. */
  function ForTail(input: string, s: PState, init: Ast.Stmt, condition: Ast.Expr): (r: Result<(Option<Ast.Stmt>, PState)>)
    requires Inv(input, s)
    ensures r.Ok? ==> Below(input, r.value.1, s)
    decreases Measure(input, s), 6
  {
    var increment :- StatementAt(input, s);
    if increment.0.None? then Err(UnwrapNone)
    else
      var _ :- Expect(increment.1, RParen);
      var s1 :- Advance(input, increment.1);
      var body :- BlockAt(input, s1);
      Ok((Some(Ast.For(init, condition, increment.0.value, body.0)), body.1))
  }

  /** `parse_function_statement`, started on `fn`. */
  function FunctionAt(input: string, s: PState): (r: Result<(Option<Ast.Stmt>, PState)>)
    requires Inv(input, s) && s.cur == Fn
    ensures r.Ok? ==> StrictlyBelow(input, r.value.1, s) && r.value.1.cur == RBrace
    decreases Measure(input, s), 4
  {
    var s1 :- Advance(input, s);
    if !s1.cur.Ident? then Err("Se esperaba nombre de función")
    else
      var s2 :- Advance(input, s1);
      var _ :- Expect(s2, LParen);
      var s3 :- Advance(input, s2);
      var params :- ParamsAt(input, s3, []);
      var _ :- Expect(params.1, RParen);
      var s4 :- Advance(input, params.1);
      var returnType :- ReturnTypeAt(input, s4);
      var body :- BlockAt(input, returnType.1);
      Ok((Some(Ast.Function(s1.cur.name, params.0, returnType.0, body.0)), body.1))
  }

  /** The parameter loop: `name : type`, optionally followed by a comma, until
      `)` or a token that is not an identifier. */
  function ParamsAt(input: string, s: PState, acc: seq<(string, Ast.Type)>): (r: Result<(seq<(string, Ast.Type)>, PState)>)
    requires Inv(input, s)
    ensures r.Ok? ==> Below(input, r.value.1, s)
    decreases Measure(input, s)
  {
    if s.cur != RParen then
      match s.cur
      case Ident(name) =>
        var s1 :- Advance(input, s);
        var _ :- Expect(s1, Colon);
        var s2 :- Advance(input, s1);
        var t :- TypeAt(input, s2);
        var s3 :- if t.1.cur == Comma then Advance(input, t.1) else Ok(t.1);
        ParamsAt(input, s3, acc + [(name, t.0)])
      case _ => Ok((acc, s))
    else Ok((acc, s))
  }

  /** The optional return type: on `:` two tokens are read before the type is
      parsed; otherwise `void`. */
  function ReturnTypeAt(input: string, s: PState): (r: Result<(Ast.Type, PState)>)
    requires Inv(input, s)
    ensures r.Ok? ==> Below(input, r.value.1, s)
  {
    if s.cur == Colon then
      var s1 :- Advance(input, s);
      var s2 :- Advance(input, s1);
      TypeAt(input, s2)
    else Ok((Ast.Void, s))
  }

  /** `parse_return_statement`, started on `return`. */
  function ReturnAt(input: string, s: PState): (r: Result<(Option<Ast.Stmt>, PState)>)
    requires Inv(input, s) && s.cur == Return
    ensures r.Ok? ==> StrictlyBelow(input, r.value.1, s) && r.value.1.cur == Semicolon
    decreases Measure(input, s), 4
  {
    var s1 :- Advance(input, s);
    if s1.cur == Semicolon then Ok((Some(Ast.Return(None)), s1))
    else
      var value :- ExpressionAt(input, s1, 0);
      var _ :- Expect(value.1, Semicolon);
      Ok((Some(Ast.Return(Some(value.0))), value.1))
  }

  /** `parse_print_statement`, started on `print`. */
  function PrintAt(input: string, s: PState): (r: Result<(Option<Ast.Stmt>, PState)>)
    requires Inv(input, s) && s.cur == Print
    ensures r.Ok? ==> StrictlyBelow(input, r.value.1, s) && r.value.1.cur == Semicolon
    decreases Measure(input, s), 4
  {
    var header :- HeaderAt(input, s);
    var _ :- Expect(header.1, Semicolon);
    Ok((Some(Ast.Print(header.0)), header.1))
  }

  /** `parse_block`: `{`, statements until `}` or `Eof`, and the `}` left current. */
  function BlockAt(input: string, s: PState): (r: Result<(seq<Ast.Stmt>, PState)>)
    requires Inv(input, s)
    ensures r.Ok? ==> StrictlyBelow(input, r.value.1, s) && r.value.1.cur == RBrace
    decreases Measure(input, s), 4
  {
    var _ :- Expect(s, LBrace);
    var s1 :- Advance(input, s);
    var items :- BlockItems(input, s1, []);
    var _ :- Expect(items.1, RBrace);
    Ok(items)
  }

  /** The statement loop of `parse_block`; a token is read after each statement. */
  function BlockItems(input: string, s: PState, acc: seq<Ast.Stmt>): (r: Result<(seq<Ast.Stmt>, PState)>)
    requires Inv(input, s)
    ensures r.Ok? ==> Below(input, r.value.1, s)
    decreases Measure(input, s), 6
  {
    if s.cur != RBrace && s.cur != Eof then
      var stmt :- StatementAt(input, s);
      var s1 :- Advance(input, stmt.1);
      BlockItems(input, s1, if stmt.0.Some? then acc + [stmt.0.value] else acc)
    else Ok((acc, s))
  }

  /** The statement loop of `parse_program`, until `Eof`. */
  function ProgramItems(input: string, s: PState, acc: seq<Ast.Stmt>): (r: Result<(seq<Ast.Stmt>, PState)>)
    requires Inv(input, s)
    ensures r.Ok? ==> Below(input, r.value.1, s)
    decreases Measure(input, s), 6
  {
    if s.cur != Eof then
      var stmt :- StatementAt(input, s);
      var s1 :- Advance(input, stmt.1);
      ProgramItems(input, s1, if stmt.0.Some? then acc + [stmt.0.value] else acc)
    else Ok((acc, s))
  }

  /** `Parser::new` on a lexer at `pos`: the first token is read from a clone,
      so the parser's own lexer stays at `pos`. */
  function InitialState(input: string, pos: nat): (s: PState)
    requires pos <= |input| && Scan(input, pos).token.Ok?
    ensures Inv(input, s)
  {
    PState(pos, Scan(input, pos).token.value)
  }

  /** The message of the panic `Parser::new`'s `unwrap` raises on a lexical
      error (the error's own text, without a backtrace). */
  function UnwrapPanic(msg: string): string {
    "called `Result::unwrap()` on an `Err` value: " + msg
  }

  /** Lexing and parsing a whole source text, as the driver does. When the first
      token does not lex, `Parser::new` panics: on an oversized number inside
      `read_number`, otherwise in its own `unwrap`; the panic is the error. */
  function ParseSource(input: string): (r: Result<Ast.Program>)
    ensures Scan(input, 0).token.Err? ==> r.Err?
  {
    var first := Scan(input, 0).token;
    if first.Err? then Err(if first.msg == OverflowPanic then OverflowPanic else UnwrapPanic(first.msg))
    else
      var items :- ProgramItems(input, InitialState(input, 0), []);
      Ok(Ast.Program(items.0))
  }

  /** A method's result and final state agree with a specification routine's:
      the value and the state it reaches on success, the message on failure
      (the state a failed parse leaves is not specified). */
  predicate Follows<T(==)>(got: Result<T>, now: PState, want: Result<(T, PState)>) {
    if want.Ok? then got == Ok(want.value.0) && now == want.value.1 else got == Err(want.msg)
  }

  /** A token read agrees with `Advance`. */
  predicate Read(got: Result<()>, now: PState, want: Result<PState>) {
    if want.Ok? then got == Ok(()) && now == want.value else got == Err(want.msg)
  }

  /** `Parser`: the lexer it owns and the current token. */
  class Parser {
    const lexer: Lexer
    var curToken: Token

    function State(): PState
      reads this, lexer
    {
      PState(lexer.pos, curToken)
    }

    ghost predicate Valid()
      reads this, lexer
    {
      lexer.Valid()
    }

    /** `Parser::new`: the first token is read from a copy of the lexer. Its
        `unwrap` panics on a lexical error; a constructor cannot fail, so the
        precondition excludes that input, and `ParseSource` states the panic. */
    constructor(lex: Lexer)
      requires lex.Valid() && Scan(lex.input, lex.pos).token.Ok?
      ensures lexer == lex && Valid() && State() == InitialState(lex.input, lex.pos)
    {
      var copy := lex.Clone();
      var first := copy.NextToken();
      lexer := lex;
      curToken := first.value;
    }

    /** `next_token`: on a lexical error the current token is kept. */
    method NextToken() returns (r: Result<()>)
      requires Valid()
      modifies this, lexer
      ensures Valid() && Read(r, State(), Advance(lexer.input, old(State())))
    {
      var tok := lexer.NextToken();
      if tok.Err? {
        return Err(tok.msg);
      }
      curToken := tok.value;
      r := Ok(());
    }

    /** `parse_program`. */
    method ParseProgram() returns (r: Result<Ast.Program>)
      requires Valid()
      modifies this, lexer
      ensures Valid()
      ensures var want := ProgramItems(lexer.input, old(State()), []);
        if want.Ok? then r == Ok(Ast.Program(want.value.0)) && State() == want.value.1
        else r == Err(want.msg)
    {
      ghost var start := State();
      var statements: seq<Ast.Stmt> := [];
      while curToken != Eof
        invariant Valid()
        invariant ProgramItems(lexer.input, start, []) == ProgramItems(lexer.input, State(), statements)
        decreases Measure(lexer.input, State())
      {
        var stmt := ParseStatement();
        if stmt.Err? {
          return Err(stmt.msg);
        }
        if stmt.value.Some? {
          statements := statements + [stmt.value.value];
        }
        var _ :- NextToken();
      }
      r := Ok(Ast.Program(statements));
    }

    /** `parse_statement`. */
    method ParseStatement() returns (r: Result<Option<Ast.Stmt>>)
      requires Valid()
      modifies this, lexer
      ensures Valid() && Follows(r, State(), StatementAt(lexer.input, old(State())))
      decreases Measure(lexer.input, State()), 5
    {
      if curToken.Let? {
        r := ParseLet();
      } else if curToken.If? {
        r := ParseIf();
      } else if curToken.While? {
        r := ParseWhile();
      } else if curToken.For? {
        r := ParseFor();
      } else if curToken.Fn? {
        r := ParseFunction();
      } else if curToken.Return? {
        r := ParseReturn();
      } else if curToken.Print? {
        r := ParsePrint();
      } else if curToken.Eof? {
        r := Ok(None);
      } else {
        r := ParseExpressionStatement();
      }
    }

    /** The expression arms of `parse_statement`. */
    method ParseExpressionStatement() returns (r: Result<Option<Ast.Stmt>>)
      requires Valid()
      modifies this, lexer
      ensures Valid() && Follows(r, State(), ExpressionStatementAt(lexer.input, old(State())))
      decreases Measure(lexer.input, State()), 4
    {
      var e :- ParseExpression(0);
      var _ :- Expect(State(), Semicolon);
      r := Ok(Some(Ast.Expression(e)));
    }

    /** `parse_let_statement`. */
    method ParseLet() returns (r: Result<Option<Ast.Stmt>>)
      requires Valid() && curToken == Let
      modifies this, lexer
      ensures Valid() && Follows(r, State(), LetAt(lexer.input, old(State())))
      decreases Measure(lexer.input, State()), 4
    {
      var _ :- NextToken();
      if !curToken.Ident? {
        return Err("Se esperaba identificador después de 'let'");
      }
      var name := curToken.name;
      var _ :- NextToken();
      var annotation :- ParseAnnotation();
      r := ParseLetValue(name, annotation);
    }

    /** `=`, the value and `;` of `parse_let_statement`. */
    method ParseLetValue(name: string, annotation: Option<Ast.Type>) returns (r: Result<Option<Ast.Stmt>>)
      requires Valid()
      modifies this, lexer
      ensures Valid() && Follows(r, State(), LetValueAt(lexer.input, old(State()), name, annotation))
    {
      var _ :- Expect(State(), Eq);
      var _ :- NextToken();
      var value :- ParseExpression(0);
      var _ :- Expect(State(), Semicolon);
      r := Ok(Some(Ast.Let(name, annotation, value)));
    }

    /** The optional `: type` of `parse_let_statement`. */
    method ParseAnnotation() returns (r: Result<Option<Ast.Type>>)
      requires Valid()
      modifies this, lexer
      ensures Valid() && Follows(r, State(), AnnotationAt(lexer.input, old(State())))
    {
      if curToken == Colon {
        var _ :- NextToken();
        var t :- ParseType();
        var _ :- NextToken();
        r := Ok(Some(t));
      } else {
        r := Ok(None);
      }
    }

    /** The opening shared by `parse_if_statement`, `parse_while_statement` and
        `parse_print_statement`. */
    method ParseHeader() returns (r: Result<Ast.Expr>)
      requires Valid() && curToken != Eof
      modifies this, lexer
      ensures Valid() && Follows(r, State(), HeaderAt(lexer.input, old(State())))
      decreases Measure(lexer.input, State()), 3
    {
      var _ :- NextToken();
      var _ :- Expect(State(), LParen);
      var _ :- NextToken();
      var condition :- ParseExpression(0);
      var _ :- Expect(State(), RParen);
      var _ :- NextToken();
      r := Ok(condition);
    }

    /** `parse_if_statement`. */
    method ParseIf() returns (r: Result<Option<Ast.Stmt>>)
      requires Valid() && curToken == If
      modifies this, lexer
      ensures Valid() && Follows(r, State(), IfAt(lexer.input, old(State())))
      decreases Measure(lexer.input, State()), 4
    {
      var condition :- ParseHeader();
      var thenBlock :- ParseBlock();
      var elseBlock :- ParseElse();
      r := Ok(Some(Ast.If(condition, thenBlock, elseBlock)));
    }

    /** The `else` part of `parse_if_statement`. */
    method ParseElse() returns (r: Result<Ast.ElseBlock>)
      requires Valid()
      modifies this, lexer
      ensures Valid() && Follows(r, State(), ElseAt(lexer.input, old(State())))
      decreases Measure(lexer.input, State()), 5
    {
      if curToken == Else {
        var _ :- NextToken();
        var elseBlock :- ParseBlock();
        r := Ok(Ast.Else(elseBlock));
      } else {
        r := Ok(Ast.NoElse);
      }
    }

    /** `parse_while_statement`. */
    method ParseWhile() returns (r: Result<Option<Ast.Stmt>>)
      requires Valid() && curToken == While
      modifies this, lexer
      ensures Valid() && Follows(r, State(), WhileAt(lexer.input, old(State())))
      decreases Measure(lexer.input, State()), 4
    {
      var condition :- ParseHeader();
      var body :- ParseBlock();
      r := Ok(Some(Ast.While(condition, body)));
    }

    /** `parse_for_statement`, up to the condition's `;`. */
    method ParseFor() returns (r: Result<Option<Ast.Stmt>>)
      requires Valid() && curToken == For
      modifies this, lexer
      ensures Valid() && Follows(r, State(), ForAt(lexer.input, old(State())))
      decreases Measure(lexer.input, State()), 4
    {
      var _ :- NextToken();
      var _ :- Expect(State(), LParen);
      var _ :- NextToken();
      var init :- ParseStatement();
      if init.None? {
        return Err(UnwrapNone);
      }
      r := ParseForCondition(init.value);
    }

    /** The condition of `parse_for_statement`. */
    method ParseForCondition(init: Ast.Stmt) returns (r: Result<Option<Ast.Stmt>>)
      requires Valid()
      modifies this, lexer
      ensures Valid() && Follows(r, State(), ForCondition(lexer.input, old(State()), init))
      decreases Measure(lexer.input, State()), 7
    {
      var _ :- NextToken();
      var condition :- ParseExpression(0);
      var _ :- Expect(State(), Semicolon);
      var _ :- NextToken();
      r := ParseForTail(init, condition);
    }

    /** The rest of `parse_for_statement`. */
    method ParseForTail(init: Ast.Stmt, condition: Ast.Expr) returns (r: Result<Option<Ast.Stmt>>)
      requires Valid()
      modifies this, lexer
      ensures Valid() && Follows(r, State(), ForTail(lexer.input, old(State()), init, condition))
      decreases Measure(lexer.input, State()), 6
    {
      var increment :- ParseStatement();
      if increment.None? {
        return Err(UnwrapNone);
      }
      var _ :- Expect(State(), RParen);
      var _ :- NextToken();
      var body :- ParseBlock();
      r := Ok(Some(Ast.For(init, condition, increment.value, body)));
    }

    /** `parse_function_statement`. */
    method ParseFunction() returns (r: Result<Option<Ast.Stmt>>)
      requires Valid() && curToken == Fn
      modifies this, lexer
      ensures Valid() && Follows(r, State(), FunctionAt(lexer.input, old(State())))
      decreases Measure(lexer.input, State()), 4
    {
      var _ :- NextToken();
      if !curToken.Ident? {
        return Err("Se esperaba nombre de función");
      }
      var name := curToken.name;
      var _ :- NextToken();
      var _ :- Expect(State(), LParen);
      var _ :- NextToken();
      var params :- ParseParams();
      var _ :- Expect(State(), RParen);
      var _ :- NextToken();
      var returnType :- ParseReturnType();
      var body :- ParseBlock();
      r := Ok(Some(Ast.Function(name, params, returnType, body)));
    }

    /** The parameter loop of `parse_function_statement`. */
    method ParseParams() returns (r: Result<seq<(string, Ast.Type)>>)
      requires Valid()
      modifies this, lexer
      ensures Valid() && Follows(r, State(), ParamsAt(lexer.input, old(State()), []))
    {
      ghost var start := State();
      var params: seq<(string, Ast.Type)> := [];
      while curToken != RParen
        invariant Valid()
        invariant ParamsAt(lexer.input, start, []) == ParamsAt(lexer.input, State(), params)
        decreases Measure(lexer.input, State())
      {
        if !curToken.Ident? {
          break;
        }
        var name := curToken.name;
        var _ :- NextToken();
        var _ :- Expect(State(), Colon);
        var _ :- NextToken();
        var paramType :- ParseType();
        params := params + [(name, paramType)];
        if curToken == Comma {
          var _ :- NextToken();
        }
      }
      r := Ok(params);
    }

    /** The return type of `parse_function_statement`. */
    method ParseReturnType() returns (r: Result<Ast.Type>)
      requires Valid()
      modifies this, lexer
      ensures Valid() && Follows(r, State(), ReturnTypeAt(lexer.input, old(State())))
    {
      if curToken == Colon {
        var _ :- NextToken();
        var _ :- NextToken();
        r := ParseType();
      } else {
        r := Ok(Ast.Void);
      }
    }

    /** `parse_return_statement`. */
    method ParseReturn() returns (r: Result<Option<Ast.Stmt>>)
      requires Valid() && curToken == Return
      modifies this, lexer
      ensures Valid() && Follows(r, State(), ReturnAt(lexer.input, old(State())))
      decreases Measure(lexer.input, State()), 4
    {
      var _ :- NextToken();
      if curToken == Semicolon {
        r := Ok(Some(Ast.Return(None)));
      } else {
        var value :- ParseExpression(0);
        var _ :- Expect(State(), Semicolon);
        r := Ok(Some(Ast.Return(Some(value))));
      }
    }

    /** `parse_print_statement`. */
    method ParsePrint() returns (r: Result<Option<Ast.Stmt>>)
      requires Valid() && curToken == Print
      modifies this, lexer
      ensures Valid() && Follows(r, State(), PrintAt(lexer.input, old(State())))
      decreases Measure(lexer.input, State()), 4
    {
      var value :- ParseHeader();
      var _ :- Expect(State(), Semicolon);
      r := Ok(Some(Ast.Print(value)));
    }

    /** `parse_block`. */
    method ParseBlock() returns (r: Result<seq<Ast.Stmt>>)
      requires Valid()
      modifies this, lexer
      ensures Valid() && Follows(r, State(), BlockAt(lexer.input, old(State())))
      decreases Measure(lexer.input, State()), 4
    {
      var _ :- Expect(State(), LBrace);
      var _ :- NextToken();
      ghost var start := State();
      var statements: seq<Ast.Stmt> := [];
      while curToken != RBrace && curToken != Eof
        invariant Valid() && Below(lexer.input, State(), start)
        invariant BlockItems(lexer.input, start, []) == BlockItems(lexer.input, State(), statements)
        decreases Measure(lexer.input, State())
      {
        var stmt :- ParseStatement();
        if stmt.Some? {
          statements := statements + [stmt.value];
        }
        var _ :- NextToken();
      }
      var _ :- Expect(State(), RBrace);
      r := Ok(statements);
    }

    /** `parse_type`. */
    method ParseType() returns (r: Result<Ast.Type>)
      requires Valid()
      modifies this, lexer
      ensures Valid() && Follows(r, State(), TypeAt(lexer.input, old(State())))
      decreases Measure(lexer.input, State())
    {
      match curToken
      case Ident(name) =>
        if name == "int" {
          r := Ok(Ast.Int);
        } else if name == "bool" {
          r := Ok(Ast.Bool);
        } else if name == "string" {
          r := Ok(Ast.Type.String);
        } else if name == "void" {
          r := Ok(Ast.Void);
        } else {
          r := Err("Tipo desconocido: " + name);
        }
      case LBracket =>
        var _ :- NextToken();
        var inner :- ParseType();
        var _ :- Expect(State(), RBracket);
        r := Ok(Ast.Array(inner));
      case _ =>
        r := Err("Se esperaba tipo");
    }

    /** `parse_expression`. Only operator tokens have a positive precedence, so
        the loop's `(` and `[` arms are never reached and are not modelled. */
    method ParseExpression(precedence: nat) returns (r: Result<Ast.Expr>)
      requires Valid()
      modifies this, lexer
      ensures Valid() && Follows(r, State(), ExpressionAt(lexer.input, old(State()), precedence))
      decreases Measure(lexer.input, State()), 2
    {
      ghost var start := State();
      var left :- ParsePrimary();
      ghost var first := State();
      while precedence < Precedence(curToken)
        invariant Valid() && Below(lexer.input, State(), first)
        invariant ExpressionAt(lexer.input, start, precedence) == InfixLoop(lexer.input, State(), precedence, left)
        decreases Measure(lexer.input, State())
      {
        left :- ParseInfixStep(left);
      }
      r := Ok(left);
    }

    /** The body of the operator loop of `parse_expression`. */
    method ParseInfixStep(left: Ast.Expr) returns (r: Result<Ast.Expr>)
      requires Valid() && Precedence(curToken) > 0
      modifies this, lexer
      ensures Valid() && Follows(r, State(), InfixStep(lexer.input, old(State()), left))
      decreases Measure(lexer.input, State()), 0
    {
      PrecedenceIffOperator(curToken);
      var op := OperatorText(curToken).value;
      var _ :- NextToken();
      var right :- ParseExpression(Precedence(curToken));
      r := Ok(Ast.Infix(left, op, right));
    }

    /** `parse_primary`. */
    method ParsePrimary() returns (r: Result<Ast.Expr>)
      requires Valid()
      modifies this, lexer
      ensures Valid() && Follows(r, State(), PrimaryAt(lexer.input, old(State())))
      decreases Measure(lexer.input, State()), 1
    {
      var t := curToken;
      var literal := Literal(t);
      if literal.Some? {
        var _ :- NextToken();
        r := Ok(literal.value);
      } else if t.Ident? {
        var _ :- NextToken();
        r := ParseCall(t.name);
      } else if t == LBracket {
        var _ :- NextToken();
        r := ParseArray();
      } else if t == LParen {
        var _ :- NextToken();
        r := ParseGrouped();
      } else {
        r := Err("Expresión no válida: " + TokenDebug(t));
      }
    }

    /** The identifier arm of `parse_primary`, after the name. */
    method ParseCall(name: string) returns (r: Result<Ast.Expr>)
      requires Valid()
      modifies this, lexer
      ensures Valid() && Follows(r, State(), CallAt(lexer.input, old(State()), name))
      decreases Measure(lexer.input, State()), 4
    {
      if curToken == LParen {
        var _ :- NextToken();
        var args :- ParseList(RParen);
        var _ :- Expect(State(), RParen);
        var _ :- NextToken();
        r := Ok(Ast.Expr.Call(name, args));
      } else {
        r := Ok(Ast.Ident(name));
      }
    }

    /** The `[` arm of `parse_primary`, after the bracket. */
    method ParseArray() returns (r: Result<Ast.Expr>)
      requires Valid()
      modifies this, lexer
      ensures Valid() && Follows(r, State(), ArrayAt(lexer.input, old(State())))
      decreases Measure(lexer.input, State()), 4
    {
      var elements :- ParseList(RBracket);
      var _ :- Expect(State(), RBracket);
      var _ :- NextToken();
      r := Ok(Ast.ArrayLiteral(elements));
    }

    /** The `(` arm of `parse_primary`, after the parenthesis. */
    method ParseGrouped() returns (r: Result<Ast.Expr>)
      requires Valid()
      modifies this, lexer
      ensures Valid() && Follows(r, State(), GroupedAt(lexer.input, old(State())))
      decreases Measure(lexer.input, State()), 3
    {
      var inner :- ParseExpression(0);
      var _ :- Expect(State(), RParen);
      var _ :- NextToken();
      r := Ok(Ast.Grouped(inner));
    }

    /** The argument and element loops of `parse_primary`. */
    method ParseList(closing: Token) returns (r: Result<seq<Ast.Expr>>)
      requires Valid()
      modifies this, lexer
      ensures Valid() && Follows(r, State(), ListAt(lexer.input, old(State()), closing, []))
      decreases Measure(lexer.input, State()), 3
    {
      ghost var start := State();
      var items: seq<Ast.Expr> := [];
      while curToken != closing
        invariant Valid() && Below(lexer.input, State(), start)
        invariant ListAt(lexer.input, start, closing, []) == ListAt(lexer.input, State(), closing, items)
        decreases Measure(lexer.input, State())
      {
        var item :- ParseExpression(0);
        items := items + [item];
        if curToken == Comma {
          var _ :- NextToken();
        }
      }
      r := Ok(items);
    }
  }

  // ----- Properties -----

  /** Exactly the ten operator tokens have a positive precedence: comparisons
      bind loosest, then `+ -`, then `* /`. */
  lemma PrecedenceIffOperator(t: Token)
    ensures Precedence(t) > 0 <==> OperatorText(t).Some?
    ensures Precedence(t) == 1 <==> t in {EqEq, NotEq, Lt, Gt, LtEq, GtEq}
    ensures Precedence(t) == 2 <==> t in {Plus, Minus}
    ensures Precedence(t) == 3 <==> t in {Star, Slash}
    ensures Precedence(t) <= 3
  {
  }

  /** `parse_type` succeeds exactly on the four type names and then has read
      nothing; in particular an array type `[T]` never parses. */
  lemma {:induction false} TypeAtShape(input: string, s: PState)
    requires Inv(input, s)
    ensures TypeAt(input, s).Ok? <==> s.cur.Ident? && s.cur.name in {"int", "bool", "string", "void"}
    ensures TypeAt(input, s).Ok? ==> TypeAt(input, s).value.1 == s
    decreases Measure(input, s)
  {
    if s.cur == LBracket {
      var a := Advance(input, s);
      if a.Ok? {
        TypeAtShape(input, a.value);
      }
    }
  }

  /** Every `Infix` on the right spine has a non-`Infix` left operand: operator
      chains associate to the right, whatever the precedences. */
  predicate RightChain(e: Ast.Expr) {
    e.Infix? ==> !e.left.Infix? && RightChain(e.right)
  }

  lemma {:induction false} ExpressionShape(input: string, s: PState, precedence: nat)
    requires Inv(input, s)
    ensures var r := ExpressionAt(input, s, precedence);
      r.Ok? ==> RightChain(r.value.0) && Precedence(r.value.1.cur) <= precedence
    decreases Measure(input, s), 1
  {
    var first := PrimaryAt(input, s);
    if first.Ok? {
      LoopShape(input, first.value.1, precedence, first.value.0);
    }
  }

  /** The operator loop runs at most once: the right operand absorbs the rest of the chain. */
  lemma {:induction false} LoopShape(input: string, s: PState, precedence: nat, left: Ast.Expr)
    requires Inv(input, s) && !left.Infix?
    ensures var r := InfixLoop(input, s, precedence, left);
      r.Ok? ==> RightChain(r.value.0) && Precedence(r.value.1.cur) <= precedence
    decreases Measure(input, s), 0
  {
    if precedence < Precedence(s.cur) {
      var step := InfixStep(input, s, left);
      if step.Ok? {
        var s1 := Advance(input, s).value;
        ExpressionShape(input, s1, Precedence(s1.cur));
        assert InfixLoop(input, step.value.1, precedence, step.value.0) == Ok(step.value);
      }
    }
  }

  /** A parsed statement leaves its last token current: the `;` of simple
      statements, the `}` of compound ones. */
  lemma {:induction false} StatementEnds(input: string, s: PState)
    requires Inv(input, s)
    ensures var r := StatementAt(input, s);
      r.Ok? && r.value.0.Some? ==> r.value.1.cur == Semicolon || r.value.1.cur == RBrace
    decreases Measure(input, s), 1
  {
    if s.cur == If {
      IfHasNoElse(input, s);
    } else if s.cur == For {
      ForNeverParses(input, s);
    }
  }

  /** The then-block of an `if` leaves its `}` current where `else` would be
      looked for, so a parsed `if` never has an else block. */
  lemma IfHasNoElse(input: string, s: PState)
    requires Inv(input, s) && s.cur == If
    ensures var r := IfAt(input, s);
      r.Ok? ==>
        r.value.0.Some? && r.value.0.value.If? && r.value.0.value.elseBlock == Ast.NoElse &&
        r.value.1.cur == RBrace
  {
  }

  /** A `for` statement never parses: its increment statement leaves its `;` or
      `}` current, where the closing `)` is expected. */
  lemma {:induction false} ForNeverParses(input: string, s: PState)
    requires Inv(input, s) && s.cur == For
    ensures ForAt(input, s).Err?
    decreases Measure(input, s), 0
  {
    var s1 := Advance(input, s);
    if s1.Ok? && Expect(s1.value, LParen).Ok? {
      var s2 := Advance(input, s1.value);
      if s2.Ok? {
        var init := StatementAt(input, s2.value);
        if init.Ok? && init.value.0.Some? {
          ForConditionFails(input, init.value.1, init.value.0.value);
        }
      }
    }
  }

  lemma {:induction false} ForConditionFails(input: string, s: PState, init: Ast.Stmt)
    requires Inv(input, s)
    ensures ForCondition(input, s, init).Err?
    decreases Measure(input, s), 3
  {
    var s1 := Advance(input, s);
    if s1.Ok? {
      var c := ExpressionAt(input, s1.value, 0);
      if c.Ok? && Expect(c.value.1, Semicolon).Ok? {
        var s2 := Advance(input, c.value.1);
        if s2.Ok? {
          ForTailFails(input, s2.value, init, c.value.0);
        }
      }
    }
  }

  lemma {:induction false} ForTailFails(input: string, s: PState, init: Ast.Stmt, condition: Ast.Expr)
    requires Inv(input, s)
    ensures ForTail(input, s, init, condition).Err?
    decreases Measure(input, s), 2
  {
    StatementEnds(input, s);
  }

  /** The parameter loop never finishes on a parameter: `parse_type` leaves the
      type name current, which the loop takes for the next parameter's name.
      It succeeds only where no parameter starts, and then reads nothing. */
  lemma {:induction false} ParamsShape(input: string, s: PState, acc: seq<(string, Ast.Type)>)
    requires Inv(input, s)
    ensures s.cur.Ident? ==> ParamsAt(input, s, acc).Err?
    ensures !s.cur.Ident? ==> ParamsAt(input, s, acc) == Ok((acc, s))
    decreases Measure(input, s)
  {
    if s.cur.Ident? {
      var s1 := Advance(input, s);
      if s1.Ok? && Expect(s1.value, Colon).Ok? {
        var s2 := Advance(input, s1.value);
        if s2.Ok? {
          TypeAtShape(input, s2.value);
          var t := TypeAt(input, s2.value);
          if t.Ok? {
            ParamsShape(input, t.value.1, acc + [(s.cur.name, t.value.0)]);
          }
        }
      }
    }
  }

  /** A return type `: T` leaves `T`'s name current where the body's `{` is
      expected, so only a function without one parses. */
  lemma ReturnTypeThenBlock(input: string, s: PState)
    requires Inv(input, s)
    ensures var rt := ReturnTypeAt(input, s);
      rt.Ok? && BlockAt(input, rt.value.1).Ok? ==> s.cur != Colon && rt.value == (Ast.Void, s)
  {
    if s.cur == Colon {
      var s1 := Advance(input, s);
      if s1.Ok? {
        var s2 := Advance(input, s1.value);
        if s2.Ok? {
          TypeAtShape(input, s2.value);
        }
      }
    }
  }

  /** A function declaration parses only with no parameters and no return type. */
  lemma FunctionShape(input: string, s: PState)
    requires Inv(input, s) && s.cur == Fn
    ensures var r := FunctionAt(input, s);
      r.Ok? ==>
        r.value.0.Some? && r.value.0.value.Function? &&
        r.value.0.value.params == [] && r.value.0.value.returnType == Ast.Void
  {
    var r := FunctionAt(input, s);
    if r.Ok? {
      var s1 := Advance(input, s).value;
      var s2 := Advance(input, s1).value;
      var s3 := Advance(input, s2).value;
      ParamsShape(input, s3, []);
      var params := ParamsAt(input, s3, []).value;
      var s4 := Advance(input, params.1).value;
      ReturnTypeThenBlock(input, s4);
    }
  }

  /** The list loops keep what they have gathered and stop on their closing token. */
  lemma {:induction false} ListEnds(input: string, s: PState, closing: Token, acc: seq<Ast.Expr>)
    requires Inv(input, s)
    ensures var r := ListAt(input, s, closing, acc);
      r.Ok? ==> r.value.1.cur == closing && acc <= r.value.0
    decreases Measure(input, s)
  {
    if s.cur != closing {
      var item := ExpressionAt(input, s, 0);
      if item.Ok? {
        var s1 := if item.value.1.cur == Comma then Advance(input, item.value.1) else Ok(item.value.1);
        if s1.Ok? {
          ListEnds(input, s1.value, closing, acc + [item.value.0]);
        }
      }
    }
  }

  /** The statement loops keep the statements gathered so far, in order, and
      stop on `}` or `Eof` (a block) or on `Eof` (a program). */
  lemma {:induction false} BlockItemsEnd(input: string, s: PState, acc: seq<Ast.Stmt>)
    requires Inv(input, s)
    ensures var r := BlockItems(input, s, acc);
      r.Ok? ==> (r.value.1.cur == RBrace || r.value.1.cur == Eof) && acc <= r.value.0
    decreases Measure(input, s)
  {
    if s.cur != RBrace && s.cur != Eof {
      var stmt := StatementAt(input, s);
      if stmt.Ok? {
        var s1 := Advance(input, stmt.value.1);
        if s1.Ok? {
          BlockItemsEnd(input, s1.value, if stmt.value.0.Some? then acc + [stmt.value.0.value] else acc);
        }
      }
    }
  }

  lemma {:induction false} ProgramItemsEnd(input: string, s: PState, acc: seq<Ast.Stmt>)
    requires Inv(input, s)
    ensures var r := ProgramItems(input, s, acc);
      r.Ok? ==> r.value.1.cur == Eof && acc <= r.value.0
    decreases Measure(input, s)
  {
    if s.cur != Eof {
      var stmt := StatementAt(input, s);
      if stmt.Ok? {
        var s1 := Advance(input, stmt.value.1);
        if s1.Ok? {
          ProgramItemsEnd(input, s1.value, if stmt.value.0.Some? then acc + [stmt.value.0.value] else acc);
        }
      }
    }
  }

  /** A state whose cursor still stands before its current token: reading a
      token yields the current token once more. This is the state `Parser::new`
      leaves, since it reads the first token from a clone of the lexer. */
  predicate Stale(input: string, s: PState)
    requires Inv(input, s)
  {
    Scan(input, s.pos).token == Ok(s.cur)
  }

  lemma InitialStateIsStale(input: string, pos: nat)
    requires pos <= |input| && Scan(input, pos).token.Ok?
    ensures Stale(input, InitialState(input, pos))
    ensures Advance(input, InitialState(input, pos)) == Ok(PState(Scan(input, pos).next, Scan(input, pos).token.value))
  {
  }

  /** From a stale state only a statement opening with `(` or `[` can parse:
      every other opening token is met a second time where what follows it is
      expected. */
  lemma StaleStatementFails(input: string, s: PState)
    requires Inv(input, s) && Stale(input, s)
    requires s.cur != LParen && s.cur != LBracket && s.cur != Eof
    ensures StatementAt(input, s).Err?
  {
    match s.cur
    case Let => StaleKeywordFails(input, s);
    case If => StaleKeywordFails(input, s);
    case While => StaleKeywordFails(input, s);
    case For => ForNeverParses(input, s);
    case Fn => StaleKeywordFails(input, s);
    case Return => StaleKeywordFails(input, s);
    case Print => StaleKeywordFails(input, s);
    case _ => StaleExpressionFails(input, s);
  }

  lemma StaleKeywordFails(input: string, s: PState)
    requires Inv(input, s) && Stale(input, s)
    requires s.cur in {Let, If, While, Fn, Return, Print}
    ensures s.cur == Let ==> LetAt(input, s).Err?
    ensures s.cur == If ==> IfAt(input, s).Err?
    ensures s.cur == While ==> WhileAt(input, s).Err?
    ensures s.cur == Fn ==> FunctionAt(input, s).Err?
    ensures s.cur == Return ==> ReturnAt(input, s).Err?
    ensures s.cur == Print ==> PrintAt(input, s).Err?
  {
    var s1 := Advance(input, s);
    if s1.Ok? {
      assert s1.value.cur == s.cur;
      if s.cur == Return {
        assert PrimaryAt(input, s1.value).Err?;
      }
    }
  }

  /** An expression statement read from a stale state. */
  lemma StaleExpressionFails(input: string, s: PState)
    requires Inv(input, s) && Stale(input, s)
    requires s.cur !in {LParen, LBracket, Eof, Let, If, While, For, Fn, Return, Print}
    ensures var e := ExpressionAt(input, s, 0);
      e.Ok? ==> e.value.1.cur == s.cur && s.cur != Semicolon
  {
    var first := PrimaryAt(input, s);
    if first.Ok? {
      var s1 := Advance(input, s);
      assert s1.Ok? && s1.value.cur == s.cur;
      if s.cur.Ident? {
        assert CallAt(input, s1.value, s.cur.name) == Ok((Ast.Ident(s.cur.name), s1.value));
      }
      assert first.value.1 == s1.value;
    }
  }

  /** A whole source parses only when its first token is `(`, `[` or the end of
      the input; a source of blanks alone is the empty program. */
  lemma ParseSourceFirstToken(input: string)
    ensures var first := Scan(input, 0).token;
      ParseSource(input).Ok? ==> first == Ok(LParen) || first == Ok(LBracket) || first == Ok(Eof)
    ensures Scan(input, 0).token == Ok(Eof) ==> ParseSource(input) == Ok(Ast.Program([]))
    ensures var first := Scan(input, 0).token;
      first.Err? && first.msg != OverflowPanic ==> ParseSource(input) == Err(UnwrapPanic(first.msg))
  {
    if Scan(input, 0).token.Ok? {
      var s := InitialState(input, 0);
      InitialStateIsStale(input, 0);
      if s.cur != LParen && s.cur != LBracket && s.cur != Eof {
        StaleStatementFails(input, s);
      }
    }
  }
}
