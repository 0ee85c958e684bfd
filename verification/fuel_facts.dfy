/** The fuel of module `Semantics` only bounds how long evaluation may run; it never
    changes what a finished evaluation computes. Every error of the interpreter
    propagates unchanged to the top, so a result other than `OutOfFuel` was reached
    without ever running out, and any larger budget reaches the same result and the
    same state. */
module FuelFacts {
  import opened Wrappers
  import opened Tokens
  import opened Ast
  import opened Errors
  import opened Environments
  import opened Callables
  import opened Semantics

  /** The evaluation did not stop for lack of fuel. */
  predicate Finished<T>(r: Evaluated<T>) {
    !(r.result.Err? && r.result.error.OutOfFuel?)
  }

  lemma {:induction false} EvalMoreFuel(ctx: Context, e: Expr, m: Machine, fuel: nat, more: nat)
    requires fuel <= more && Finished(Eval(ctx, e, m, fuel))
    ensures Eval(ctx, e, m, more) == Eval(ctx, e, m, fuel)
    decreases fuel, e, 2, 0
  {
    match e
    case Literal(_, _) =>
    case Variable(_, _) =>
    case Grouping(_, inner) =>
      EvalMoreFuel(ctx, inner, m, fuel, more);
    case Unary(_, _, right) =>
      EvalMoreFuel(ctx, right, m, fuel, more);
    case Binary(_, left, _, right) =>
      EvalMoreFuel(ctx, left, m, fuel, more);
      var a := Eval(ctx, left, m, fuel);
      if a.result.Ok? {
        EvalMoreFuel(ctx, right, a.state, fuel, more);
      }
    case Assign(_, _, target) =>
      if !target.Literal? {
        EvalMoreFuel(ctx, target, m, fuel, more);
      }
    case Logical(_, left, _, right) =>
      EvalMoreFuel(ctx, left, m, fuel, more);
      var a := Eval(ctx, left, m, fuel);
      if a.result.Ok? && !ShortCircuits(e.operator, a.result.value) {
        EvalMoreFuel(ctx, right, a.state, fuel, more);
      }
    case Call(_, callee, paren, arguments) =>
      EvalMoreFuel(ctx, callee, m, fuel, more);
      var c := Eval(ctx, callee, m, fuel);
      if c.result.Ok? {
        EvalArgsMoreFuel(ctx, arguments, 0, [], c.state, fuel, more);
        var a := EvalArgs(ctx, arguments, 0, [], c.state, fuel);
        if a.result.Ok? {
          InvokeMoreFuel(ctx, c.result.value, paren, arguments, a.state, fuel, more);
        }
      }
  }

  lemma {:induction false} EvalArgsMoreFuel(ctx: Context, arguments: seq<Expr>, i: nat, done: seq<LitType>, m: Machine,
                                            fuel: nat, more: nat)
    requires i <= |arguments|
    requires fuel <= more && Finished(EvalArgs(ctx, arguments, i, done, m, fuel))
    ensures EvalArgs(ctx, arguments, i, done, m, more) == EvalArgs(ctx, arguments, i, done, m, fuel)
    decreases fuel, arguments, 2, |arguments| - i
  {
    if i < |arguments| {
      EvalMoreFuel(ctx, arguments[i], m, fuel, more);
      var a := Eval(ctx, arguments[i], m, fuel);
      if a.result.Ok? {
        EvalArgsMoreFuel(ctx, arguments, i + 1, done + [a.result.value], a.state, fuel, more);
      }
    }
  }

  lemma {:induction false} InvokeMoreFuel(ctx: Context, callee: LitType, paren: Token, arguments: seq<Expr>, m: Machine,
                                          fuel: nat, more: nat)
    requires fuel <= more && Finished(Invoke(ctx, callee, paren, arguments, m, fuel))
    ensures Invoke(ctx, callee, paren, arguments, m, more) == Invoke(ctx, callee, paren, arguments, m, fuel)
    decreases fuel, arguments, 1, 1
  {
    if callee.Callable? && callee.callable.Function? && |arguments| == FunctionArity(callee.callable.fn) {
      CallMoreFuel(ctx, callee.callable.fn, arguments, m, fuel, more);
    }
  }

  lemma {:induction false} CallMoreFuel(ctx: Context, f: LoxFunction, arguments: seq<Expr>, m: Machine,
                                        fuel: nat, more: nat)
    requires |arguments| == FunctionArity(f)
    requires fuel <= more && Finished(CallFunction(ctx, f, arguments, m, fuel))
    ensures CallFunction(ctx, f, arguments, m, more) == CallFunction(ctx, f, arguments, m, fuel)
    decreases fuel, arguments, 1, 0
  {
    if fuel > 0 && f.declaration.Some? {
      var d := f.declaration.value;
      if d.Function? {
        var b := Bind(ctx, d.params, arguments, 0, CallEnvironment(ctx), m, fuel - 1);
        BindMoreFuel(ctx, d.params, arguments, 0, CallEnvironment(ctx), m, fuel - 1, more - 1);
        if b.result.Ok? {
          ExecBlockMoreFuel(ctx, d.body, 0, b.state.(environment := b.result.value), fuel - 1, more - 1);
        }
      } else if d.Return? {
        EvalMoreFuel(ctx, d.value, m, fuel - 1, more - 1);
      }
    }
  }

  lemma {:induction false} BindMoreFuel(ctx: Context, params: seq<Token>, arguments: seq<Expr>, i: nat,
                                        env: Environment, m: Machine, fuel: nat, more: nat)
    requires i <= |params| <= |arguments|
    requires fuel <= more && Finished(Bind(ctx, params, arguments, i, env, m, fuel))
    ensures Bind(ctx, params, arguments, i, env, m, more) == Bind(ctx, params, arguments, i, env, m, fuel)
    decreases fuel, arguments, 0, |params| - i
  {
    if i < |params| {
      EvalMoreFuel(ctx, arguments[i], m, fuel, more);
      var a := Eval(ctx, arguments[i], m, fuel);
      if a.result.Ok? {
        BindMoreFuel(ctx, params, arguments, i + 1, env.Define(params[i].lexeme, a.result.value), a.state, fuel, more);
      }
    }
  }

  lemma {:induction false} ExecMoreFuel(ctx: Context, s: Statement, m: Machine, fuel: nat, more: nat)
    requires fuel <= more && Finished(Exec(ctx, s, m, fuel))
    ensures Exec(ctx, s, m, more) == Exec(ctx, s, m, fuel)
    decreases fuel, s, 2, 0
  {
    match s
    case Print(_, expression) =>
      EvalMoreFuel(ctx, expression, m, fuel, more);
    case Expression(_, expression) =>
      EvalMoreFuel(ctx, expression, m, fuel, more);
    case Var(_, _, initializer) =>
      if initializer.Some? {
        EvalMoreFuel(ctx, initializer.value, m, fuel, more);
      }
    case Block(_, statements) =>
      ExecBlockMoreFuel(ctx, statements, 0, m.(environment := Environment.New(Some(m.environment))), fuel, more);
    case If(_, condition, thenBranch, elseBranch) =>
      EvalMoreFuel(ctx, condition, m, fuel, more);
      var a := Eval(ctx, condition, m, fuel);
      if a.result.Ok? {
        if IsTruthy(a.result.value) {
          ExecMoreFuel(ctx, thenBranch, a.state, fuel, more);
        } else if elseBranch.Some? {
          ExecMoreFuel(ctx, elseBranch.value, a.state, fuel, more);
        }
      }
    case While(_, _, _) =>
      ExecWhileMoreFuel(ctx, s, m, fuel, more);
    case Function(_, _, _, _) =>
    case Return(_, _, value) =>
      EvalMoreFuel(ctx, value, m, fuel, more);
  }

  lemma {:induction false} ExecBlockMoreFuel(ctx: Context, statements: seq<Statement>, i: nat, m: Machine,
                                             fuel: nat, more: nat)
    requires i <= |statements|
    requires fuel <= more && Finished(ExecBlock(ctx, statements, i, m, fuel))
    ensures ExecBlock(ctx, statements, i, m, more) == ExecBlock(ctx, statements, i, m, fuel)
    decreases fuel, statements, 1, |statements| - i
  {
    if i < |statements| {
      ExecMoreFuel(ctx, statements[i], m, fuel, more);
      var a := Exec(ctx, statements[i], m, fuel);
      if a.result.Ok? {
        ExecBlockMoreFuel(ctx, statements, i + 1, a.state, fuel, more);
      }
    }
  }

  lemma {:induction false} ExecWhileMoreFuel(ctx: Context, s: Statement, m: Machine, fuel: nat, more: nat)
    requires s.While?
    requires fuel <= more && Finished(ExecWhile(ctx, s, m, fuel))
    ensures ExecWhile(ctx, s, m, more) == ExecWhile(ctx, s, m, fuel)
    decreases fuel, s, 1, 0
  {
    var a := Eval(ctx, s.condition, m, fuel);
    EvalMoreFuel(ctx, s.condition, m, fuel, more);
    if a.result.Ok? && IsTruthy(a.result.value) {
      var b := Exec(ctx, s.loopBody, a.state, fuel);
      ExecMoreFuel(ctx, s.loopBody, a.state, fuel, more);
      if b.result.Ok? && b.result.value.None? {
        assert fuel > 0;
        ExecWhileMoreFuel(ctx, s, b.state, fuel - 1, more - 1);
        assert ExecWhile(ctx, s, m, fuel) == ExecWhile(ctx, s, b.state, fuel - 1);
        assert ExecWhile(ctx, s, m, more) == ExecWhile(ctx, s, b.state, more - 1);
      } else {
        assert ExecWhile(ctx, s, m, more) == b;
      }
    }
  }
}
