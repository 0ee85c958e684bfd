/** Runtime values (rlok_lib/src/lit.rs), the callable values they may hold
    (the structs of rlok_lib/src/lox_callable.rs), and the interpreter's syntax
    trees (rlok_lib/src/expression.rs and rlok_lib/src/statement.rs).

    They live in one module because they are mutually recursive: a value can be
    a function, a function holds its declaration, a declaration holds expressions,
    and a literal expression holds a value. */
module Ast {
  import opened Wrappers
  import opened Tokens
  import opened Spans

  /** `LitType`. The source's `f32` is kept abstract as a `real`: the model relies
      only on its sign, on equality with zero and on the order of numbers. The
      `Callable` variant is the one the interpreter constructs and matches. */
  datatype LitType =
    | Float(f: real)
    | Str(s: string)
    | Bool(b: bool)
    | Nil
    | Callable(callable: LoxCallable)

  datatype LoxCallable =
    | Function(fn: LoxFunction)
    | Clock(clock: Clock)

  /** A user function: the declaration it was created from (if any) and its name. */
  datatype LoxFunction = LoxFunction(declaration: Option<Statement>, callee: string)

  /** The native `clock` function. */
  datatype Clock = ClockFn(callee: string)

  datatype Expr =
    | Binary(span: Span, left: Expr, operator: Token, right: Expr)
    | Grouping(span: Span, expression: Expr)
    | Literal(span: Span, value: Option<LitType>)
    | Unary(span: Span, operator: Token, right: Expr)
    | Variable(span: Span, name: Token)
    | Assign(span: Span, name: Token, newValue: Expr)
    | Logical(span: Span, left: Expr, operator: Token, right: Expr)
    | Call(span: Span, callee: Expr, paren: Token, arguments: seq<Expr>)

  datatype Statement =
    | Expression(span: Span, expression: Expr)
    | Print(span: Span, expression: Expr)
    | Var(span: Span, name: Token, initializer: Option<Expr>)
    | Block(span: Span, statements: seq<Statement>)
    | If(span: Span, condition: Expr, thenBranch: Statement, elseBranch: Option<Statement>)
    | While(span: Span, condition: Expr, loopBody: Statement)
    | Function(span: Span, name: Token, params: seq<Token>, body: seq<Statement>)
    | Return(span: Span, keyword: Token, value: Expr)
}
