/** What the tree-walking evaluator of rlok_lib/src/interpreter.rs computes, as
    functions on values.

    The interpreter's mutable state is its current environment; `print` is modelled
    as appending the printed value to an output list. Both travel in a `Machine`,
    and every evaluation step returns its result together with the machine it leaves
    behind, on success and on failure alike: a failing `?` in the source leaves
    whatever the earlier steps changed in place.

    The source has no bound on evaluation (a `while` or a recursive call may run
    forever), so every function here takes a fuel budget. One unit is spent per
    `while` iteration after the first and per call of a user function; running out
    yields `OutOfFuel`. */
module Semantics {
  import opened Wrappers
  import opened Tokens
  import opened Ast
  import opened Errors
  import opened Environments
  import opened Callables

  /** What stays fixed during a run: the global scope that user functions close
      over, and the reading of the system clock that a call of `clock()` returns. */
  datatype Context = Context(globals: Environment, now: real)

  /** The interpreter's changing state: the current environment and what `print`
      has produced so far. */
  datatype Machine = Machine(environment: Environment, output: seq<LitType>)

  /** A result together with the state it leaves behind. */
  datatype Evaluated<T> = Evaluated(result: Result<T, RuntimeError>, state: Machine)

  /** The failure of `o`, at the state `o` left. */
  function Fail<T, U>(o: Evaluated<T>): (r: Evaluated<U>)
    requires o.result.Err?
    ensures r.result == Err(o.result.error) && r.state == o.state
  {
    Evaluated(Err(o.result.error), o.state)
  }

  // ---------------------------------------------------------------------------
  // Values and operators

  /** `is_truthy`: positive numbers, non-empty strings and `true`. */
  predicate IsTruthy(v: LitType) {
    match v
    case Float(f) => f > 0.0
    case Str(s) => |s| > 0
    case Bool(b) => b
    case Nil => false
    case Callable(_) => false
  }

  /** `literal_expr`: a literal node without a value is an error. */
  function LiteralValue(value: Option<LitType>): (r: Result<LitType, RuntimeError>)
    ensures r.Ok? <==> value.Some?
    ensures r.Ok? ==> r.value == value.value
    ensures r.Err? ==> r.error == InvalidLiteral
  {
    if value.Some? then Ok(value.value) else Err(InvalidLiteral)
  }

  /** The case analysis of `unary_expr` on the evaluated operand. `-` negates a
      number, `!` is the logical negation of a boolean or of `nil`. */
  function UnaryOp(operator: Token, right: LitType): (r: Result<LitType, RuntimeError>)
    ensures r.Ok? <==> (operator.ty.Minus? && right.Float?) ||
                       (operator.ty.Bang? && (right.Bool? || right.Nil?))
    ensures r.Ok? && operator.ty.Minus? ==> r.value == Float(-right.f)
    ensures r.Ok? && operator.ty.Bang? ==> r.value == Bool(!IsTruthy(right))
    ensures r.Err? ==> r.error == if operator.ty.Minus? then InvalidUnary
                                  else if operator.ty.Bang? then RighthandBoolorNil
                                  else UnaryExpects
  {
    match operator.ty
    case Minus => if right.Float? then Ok(Float(-right.f)) else Err(InvalidUnary)
    case Bang =>
      (match right
       case Bool(b) => Ok(Bool(!b))
       case Nil => Ok(Bool(true))
       case _ => Err(RighthandBoolorNil))
    case _ => Err(UnaryExpects)
  }

  /** The operators `binary_expr` accepts on two numbers. */
  predicate IsNumericOperator(ty: TokenType) {
    ty.Plus? || ty.Minus? || ty.Slash? || ty.Star? ||
    ty.Less? || ty.LessEqual? || ty.Greater? || ty.GreaterEqual? || ty.EqualEqual?
  }

  /** The comparisons among them, which yield a boolean. */
  predicate IsComparison(ty: TokenType) {
    ty.Less? || ty.LessEqual? || ty.Greater? || ty.GreaterEqual? || ty.EqualEqual?
  }

  /** The case analysis of `binary_expr` on the two evaluated operands: arithmetic
      and comparison on two numbers, concatenation of two strings, an error for
      everything else. */
  function BinaryOp(operator: Token, left: LitType, right: LitType): (r: Result<LitType, RuntimeError>)
    ensures r.Ok? <==> (left.Float? && right.Float? && IsNumericOperator(operator.ty) &&
                        !(operator.ty.Slash? && right.f == 0.0)) ||
                       (left.Str? && right.Str? && operator.ty.Plus?)
    ensures r.Ok? && left.Float? ==> (r.value.Bool? <==> IsComparison(operator.ty))
    ensures r.Ok? && left.Str? ==> r.value == Str(left.s + right.s)
    ensures r.Err? && left.Float? && right.Float? ==>
      r.error == if IsNumericOperator(operator.ty) then DivideByZero else InvalidNumerical(operator)
    ensures r.Err? && left.Str? && right.Str? ==> r.error == InvalidStringConcat
    ensures r.Err? && !(left.Float? && right.Float?) && !(left.Str? && right.Str?) ==>
      r.error == BinaryTypeMismatch
  {
    if right.Float? && left.Float? then
      var l, r := left.f, right.f;
      match operator.ty
      case Plus => Ok(Float(l + r))
      case Minus => Ok(Float(l - r))
      case Slash => if r == 0.0 then Err(DivideByZero) else Ok(Float(l / r))
      case Star => Ok(Float(l * r))
      case Less => Ok(Bool(l < r))
      case LessEqual => Ok(Bool(l <= r))
      case Greater => Ok(Bool(l > r))
      case GreaterEqual => Ok(Bool(l >= r))
      case EqualEqual => Ok(Bool(l == r))
      case _ => Err(InvalidNumerical(operator))
    else if right.Str? && left.Str? then
      if operator.ty.Plus? then Ok(Str(left.s + right.s)) else Err(InvalidStringConcat)
    else Err(BinaryTypeMismatch)
  }

  /** `logical_expr` returns its left operand without evaluating the right one when
      the left one decides: truthy for `or`, falsy for every other operator. */
  predicate ShortCircuits(operator: Token, left: LitType) {
    if operator.ty.OR? then IsTruthy(left) else !IsTruthy(left)
  }

  /** The environment of a call: an empty scope directly under the globals. */
  function CallEnvironment(ctx: Context): (e: Environment)
    ensures e.values == map[] && e.enclosing == Some(ctx.globals)
  {
    Environment.New(Some(ctx.globals))
  }

  /** The value `function_statement` binds: a user function holding the whole
      declaration and named after it. */
  function FunctionValue(s: Statement): (v: LitType)
    requires s.Function?
    ensures v.Callable? && v.callable.Function? && DeclaresFunction(v.callable.fn)
    ensures FunctionCallee(v.callable.fn) == s.name.lexeme
    ensures v.callable.fn.declaration == Some(s)
  {
    Callable(LoxCallable.Function(NewFunction(s.name.lexeme, Some(s))))
  }

  // ---------------------------------------------------------------------------
  // Expressions

  /** `evaluate_expr` and the per-kind methods it dispatches to. */
  function Eval(ctx: Context, e: Expr, m: Machine, fuel: nat): (r: Evaluated<LitType>)
    ensures m.output <= r.state.output
    decreases fuel, e, 2, 0
  {
    match e
    case Literal(_, value) => Evaluated(LiteralValue(value), m)
    case Grouping(_, inner) => Eval(ctx, inner, m, fuel)
    case Unary(_, operator, right) =>
      var a := Eval(ctx, right, m, fuel);
      if a.result.Err? then a else Evaluated(UnaryOp(operator, a.result.value), a.state)
    case Binary(_, left, operator, right) =>
      var a := Eval(ctx, left, m, fuel);
      if a.result.Err? then a else
      var b := Eval(ctx, right, a.state, fuel);
      if b.result.Err? then b else Evaluated(BinaryOp(operator, a.result.value, b.result.value), b.state)
    case Variable(_, name) => Evaluated(m.environment.Get(name), m)
    case Assign(_, name, target) =>
      if target.Literal? then
        if target.value.Some? then Store(name, target.value.value, m)
        else Evaluated(Err(InvalidAssignmentTarget(name)), m)
      else
        var a := Eval(ctx, target, m, fuel);
        if a.result.Err? then a else Store(name, a.result.value, a.state)
    case Logical(_, left, operator, right) =>
      var a := Eval(ctx, left, m, fuel);
      if a.result.Err? || ShortCircuits(operator, a.result.value) then a
      else Eval(ctx, right, a.state, fuel)
    case Call(_, callee, paren, arguments) =>
      var c := Eval(ctx, callee, m, fuel);
      if c.result.Err? then c else
      var a := EvalArgs(ctx, arguments, 0, [], c.state, fuel);
      if a.result.Err? then Fail(a)
      else Invoke(ctx, c.result.value, paren, arguments, a.state, fuel)
  }

  /** The assignment step of `assign_expr`: update the nearest binding and yield the
      assigned value. */
  function Store(name: Token, value: LitType, m: Machine): (r: Evaluated<LitType>)
    ensures r.state.output == m.output
    ensures r.result.Ok? ==> r.result.value == value
  {
    match m.environment.Assign(name, value)
    case Ok(env) => Evaluated(Ok(value), m.(environment := env))
    case Err(err) => Evaluated(Err(err), m)
  }

  /** The argument loop of `call_expr`: `arguments[i..]` left to right, after the
      values `done` of the earlier ones. */
  function EvalArgs(ctx: Context, arguments: seq<Expr>, i: nat, done: seq<LitType>, m: Machine, fuel: nat)
    : (r: Evaluated<seq<LitType>>)
    requires i <= |arguments|
    ensures m.output <= r.state.output
    ensures r.result.Ok? ==> |r.result.value| == |done| + |arguments| - i && done <= r.result.value
    decreases fuel, arguments, 2, |arguments| - i
  {
    if i == |arguments| then Evaluated(Ok(done), m)
    else
      var a := Eval(ctx, arguments[i], m, fuel);
      if a.result.Err? then Fail(a)
      else EvalArgs(ctx, arguments, i + 1, done + [a.result.value], a.state, fuel)
  }

  /** The dispatch at the end of `call_expr`: only callables can be called, and only
      with as many arguments as their arity. */
  function Invoke(ctx: Context, callee: LitType, paren: Token, arguments: seq<Expr>, m: Machine, fuel: nat)
    : (r: Evaluated<LitType>)
    ensures m.output <= r.state.output
    decreases fuel, arguments, 1, 1
  {
    match callee
    case Callable(Function(f)) =>
      if |arguments| != FunctionArity(f) then
        Evaluated(Err(IncorrectArgumentCount(FunctionArity(f), |arguments|)), m)
      else CallFunction(ctx, f, arguments, m, fuel)
    case Callable(Clock(c)) =>
      if |arguments| != ClockArity(c) then
        Evaluated(Err(IncorrectArgumentCount(ClockArity(c), |arguments|)), m)
      else Evaluated(Ok(Float(ctx.now)), m)
    case _ => Evaluated(Err(NotCallable(paren)), m)
  }

  /** `LoxFunction::call`. A function declaration binds its parameters in a fresh
      scope under the globals, to the argument expressions evaluated once more in the
      caller's environment, runs its body as a block and yields `nil`; a stored
      `return` statement yields its value evaluated in the current environment;
      anything else yields `nil`. */
  function CallFunction(ctx: Context, f: LoxFunction, arguments: seq<Expr>, m: Machine, fuel: nat)
    : (r: Evaluated<LitType>)
    requires |arguments| == FunctionArity(f)
    ensures m.output <= r.state.output
    decreases fuel, arguments, 1, 0
  {
    if fuel == 0 then Evaluated(Err(OutOfFuel), m)
    else if f.declaration.Some? then
      match f.declaration.value
      case Function(_, _, params, body) =>
        var b := Bind(ctx, params, arguments, 0, CallEnvironment(ctx), m, fuel - 1);
        if b.result.Err? then Fail(b) else
        var x := ExecBlock(ctx, body, 0, b.state.(environment := b.result.value), fuel - 1);
        if x.result.Err? then Fail(x) else Evaluated(Ok(Nil), x.state)
      case Return(_, _, value) => Eval(ctx, value, m, fuel - 1)
      case _ => Evaluated(Ok(Nil), m)
    else Evaluated(Ok(Nil), m)
  }

  /** The parameter loop of `LoxFunction::call`: define `params[i..]`, each to its
      argument, in `env`. */
  function Bind(ctx: Context, params: seq<Token>, arguments: seq<Expr>, i: nat, env: Environment, m: Machine, fuel: nat)
    : (r: Evaluated<Environment>)
    requires i <= |params| <= |arguments|
    ensures m.output <= r.state.output
    ensures r.result.Ok? ==> r.result.value.enclosing == env.enclosing
    decreases fuel, arguments, 0, |params| - i
  {
    if i == |params| then Evaluated(Ok(env), m)
    else
      var a := Eval(ctx, arguments[i], m, fuel);
      if a.result.Err? then Fail(a)
      else Bind(ctx, params, arguments, i + 1, env.Define(params[i].lexeme, a.result.value), a.state, fuel)
  }

  // ---------------------------------------------------------------------------
  // Statements

  /** `evaluate_statement`: an expression statement yields its value, every other
      statement that completes yields nothing unless it contains one that does. */
  function Exec(ctx: Context, s: Statement, m: Machine, fuel: nat): (r: Evaluated<Option<LitType>>)
    ensures m.output <= r.state.output
    decreases fuel, s, 2, 0
  {
    match s
    case Print(_, expression) =>
      var a := Eval(ctx, expression, m, fuel);
      if a.result.Err? then Fail(a)
      else Evaluated(Ok(None), a.state.(output := a.state.output + [a.result.value]))
    case Expression(_, expression) =>
      var a := Eval(ctx, expression, m, fuel);
      if a.result.Err? then Fail(a) else Evaluated(Ok(Some(a.result.value)), a.state)
    case Var(_, name, initializer) =>
      if initializer.None? then Evaluated(Err(StatementMissingExpression), m)
      else
        var a := Eval(ctx, initializer.value, m, fuel);
        if a.result.Err? then Fail(a)
        else Evaluated(Ok(None), a.state.(environment := a.state.environment.Define(name.lexeme, a.result.value)))
    case Block(_, statements) =>
      ExecBlock(ctx, statements, 0, m.(environment := Environment.New(Some(m.environment))), fuel)
    case If(_, condition, thenBranch, elseBranch) =>
      var a := Eval(ctx, condition, m, fuel);
      if a.result.Err? then Fail(a)
      else if IsTruthy(a.result.value) then Exec(ctx, thenBranch, a.state, fuel)
      else if elseBranch.Some? then Exec(ctx, elseBranch.value, a.state, fuel)
      else Evaluated(Ok(None), a.state)
    case While(_, _, _) => ExecWhile(ctx, s, m, fuel)
    case Function(_, name, _, _) =>
      Evaluated(Ok(None), m.(environment := m.environment.Define(name.lexeme, FunctionValue(s))))
    case Return(_, _, value) =>
      var a := Eval(ctx, value, m, fuel);
      if a.result.Err? then Fail(a) else Evaluated(Err(RuntimeError.Return(a.result.value)), a.state)
  }

  /** The statement loop of `block_statement`, from `statements[i]` on, in whatever
      environment `m` holds; the block's own result is always nothing. */
  function ExecBlock(ctx: Context, statements: seq<Statement>, i: nat, m: Machine, fuel: nat)
    : (r: Evaluated<Option<LitType>>)
    requires i <= |statements|
    ensures m.output <= r.state.output
    ensures r.result.Ok? ==> r.result.value.None?
    decreases fuel, statements, 1, |statements| - i
  {
    if i == |statements| then Evaluated(Ok(None), m)
    else
      var a := Exec(ctx, statements[i], m, fuel);
      if a.result.Err? then Fail(a) else ExecBlock(ctx, statements, i + 1, a.state, fuel)
  }

  /** `while_statement`: test, run the body, stop on the first output the body
      yields; each further round costs one unit of fuel. */
  function ExecWhile(ctx: Context, s: Statement, m: Machine, fuel: nat): (r: Evaluated<Option<LitType>>)
    requires s.While?
    ensures m.output <= r.state.output
    decreases fuel, s, 1, 0
  {
    var a := Eval(ctx, s.condition, m, fuel);
    if a.result.Err? then Fail(a)
    else if !IsTruthy(a.result.value) then Evaluated(Ok(None), a.state)
    else
      var b := Exec(ctx, s.loopBody, a.state, fuel);
      if b.result.Err? || b.result.value.Some? then b
      else if fuel == 0 then Evaluated(Err(OutOfFuel), b.state)
      else ExecWhile(ctx, s, b.state, fuel - 1)
  }
}
