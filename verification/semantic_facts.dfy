/** What the evaluator of rlok_lib/src/interpreter.rs and `LoxFunction::call` of
    rlok_lib/src/lox_callable.rs promise, stated over the functions of module
    `Semantics`. */
module SemanticFacts {
  import opened Wrappers
  import opened Tokens
  import opened Ast
  import opened Errors
  import opened Environments
  import opened Callables
  import opened Semantics

  // ---------------------------------------------------------------------------
  // Values and operators

  /** Truthiness: `nil` and callables are falsy, a boolean is itself, a string is
      truthy when non-empty, and a number only when positive, so `0` and negative
      numbers are falsy. */
  lemma TruthTable(v: LitType)
    ensures v.Nil? || v.Callable? ==> !IsTruthy(v)
    ensures v.Bool? ==> (IsTruthy(v) <==> v.b)
    ensures v.Str? ==> (IsTruthy(v) <==> v.s != "")
    ensures v.Float? ==> (IsTruthy(v) <==> v.f > 0.0)
  {
  }

  /** Both unary operators undo themselves on the operands they accept. */
  lemma UnaryInvolution(operator: Token, v: LitType)
    requires UnaryOp(operator, v).Ok? && !v.Nil?
    ensures UnaryOp(operator, UnaryOp(operator, v).value) == Ok(v)
  {
  }

  /** `!nil` is `true`, yet `!` applied to that again gives `false`, not `nil`. */
  lemma NotNilIsTrue(operator: Token)
    requires operator.ty.Bang?
    ensures UnaryOp(operator, Nil) == Ok(Bool(true))
    ensures UnaryOp(operator, UnaryOp(operator, Nil).value) == Ok(Bool(false))
  {
  }

  /** The value of each numeric operator on two numbers: the arithmetic operators
      compute the sum, difference, product and (for a non-zero divisor) quotient,
      the comparisons the truth of the relation. */
  lemma NumberResults(operator: Token, a: real, b: real)
    ensures operator.ty.Plus? ==> BinaryOp(operator, Float(a), Float(b)) == Ok(Float(a + b))
    ensures operator.ty.Minus? ==> BinaryOp(operator, Float(a), Float(b)) == Ok(Float(a - b))
    ensures operator.ty.Star? ==> BinaryOp(operator, Float(a), Float(b)) == Ok(Float(a * b))
    ensures operator.ty.Slash? && b != 0.0 ==> BinaryOp(operator, Float(a), Float(b)) == Ok(Float(a / b))
    ensures operator.ty.Less? ==> BinaryOp(operator, Float(a), Float(b)) == Ok(Bool(a < b))
    ensures operator.ty.LessEqual? ==> BinaryOp(operator, Float(a), Float(b)) == Ok(Bool(a <= b))
    ensures operator.ty.Greater? ==> BinaryOp(operator, Float(a), Float(b)) == Ok(Bool(a > b))
    ensures operator.ty.GreaterEqual? ==> BinaryOp(operator, Float(a), Float(b)) == Ok(Bool(a >= b))
    ensures operator.ty.EqualEqual? ==> BinaryOp(operator, Float(a), Float(b)) == Ok(Bool(a == b))
  {
    if operator.ty.Star? {
      var r := BinaryOp(operator, Float(a), Float(b));
      assert r.Ok? && r.value.Float? && r.value.f == a * b;
      assert r.value == Float(a * b);
    }
  }

  /** On numbers the comparisons agree with one another: `a < b` is `b > a`, `<=` is
      `<` or `==`, and `>=` is the negation of `<`. */
  lemma ComparisonsAgree(lt: Token, le: Token, gt: Token, ge: Token, eq: Token, a: real, b: real)
    requires lt.ty.Less? && le.ty.LessEqual? && gt.ty.Greater? && ge.ty.GreaterEqual? && eq.ty.EqualEqual?
    ensures BinaryOp(lt, Float(a), Float(b)) == BinaryOp(gt, Float(b), Float(a))
    ensures BinaryOp(le, Float(a), Float(b)).value.b <==>
      BinaryOp(lt, Float(a), Float(b)).value.b || BinaryOp(eq, Float(a), Float(b)).value.b
    ensures BinaryOp(ge, Float(a), Float(b)).value.b <==> !BinaryOp(lt, Float(a), Float(b)).value.b
  {
  }

  /** Equality is defined only on numbers: `nil == nil` is a type mismatch, two
      strings cannot be compared, and `!=` is not a numeric operator at all. */
  lemma EqualityOnlyOnNumbers(eq: Token, ne: Token, s: string, t: string, a: real, b: real)
    requires eq.ty.EqualEqual? && ne.ty.BangEqual?
    ensures BinaryOp(eq, Nil, Nil) == Err(BinaryTypeMismatch)
    ensures BinaryOp(eq, Bool(true), Bool(true)) == Err(BinaryTypeMismatch)
    ensures BinaryOp(eq, Str(s), Str(t)) == Err(InvalidStringConcat)
    ensures BinaryOp(ne, Float(a), Float(b)) == Err(InvalidNumerical(ne))
  {
  }

  /** Division of numbers fails exactly on a zero divisor, and then with
      `DivideByZero`. */
  lemma DivisionFailsOnZeroOnly(slash: Token, a: real, b: real)
    requires slash.ty.Slash?
    ensures BinaryOp(slash, Float(a), Float(b)).Err? <==> b == 0.0
    ensures b == 0.0 ==> BinaryOp(slash, Float(a), Float(b)) == Err(DivideByZero)
  {
  }

  // ---------------------------------------------------------------------------
  // Expressions

  /** `and`/`or`: when the left operand decides, the result and the state are the
      left operand's and the right operand is never evaluated; otherwise the result
      is the right operand's, evaluated after the left. */
  lemma LogicalShortCircuit(ctx: Context, e: Expr, m: Machine, fuel: nat, other: Expr)
    requires e.Logical?
    ensures var a := Eval(ctx, e.left, m, fuel);
      a.result.Ok? && ShortCircuits(e.operator, a.result.value) ==>
        Eval(ctx, e, m, fuel) == a && Eval(ctx, e.(right := other), m, fuel) == a
    ensures var a := Eval(ctx, e.left, m, fuel);
      a.result.Ok? && !ShortCircuits(e.operator, a.result.value) ==>
        Eval(ctx, e, m, fuel) == Eval(ctx, e.right, a.state, fuel)
  {
  }

  /** `call_expr` evaluates the callee, then every argument, and only then checks
      the callee: a non-callable fails with `NotCallable`, and a wrong argument
      count fails with `IncorrectArgumentCount(arity, given)` before anything of
      the callee runs. */
  lemma CallChecks(ctx: Context, e: Expr, m: Machine, fuel: nat)
    requires e.Call?
    ensures var c := Eval(ctx, e.callee, m, fuel);
      c.result.Ok? ==>
      var a := EvalArgs(ctx, e.arguments, 0, [], c.state, fuel);
      a.result.Ok? ==>
      (!c.result.value.Callable? ==>
         Eval(ctx, e, m, fuel) == Evaluated(Err(NotCallable(e.paren)), a.state)) &&
      (c.result.value.Callable? && |e.arguments| != Arity(c.result.value.callable) ==>
         Eval(ctx, e, m, fuel) ==
           Evaluated(Err(IncorrectArgumentCount(Arity(c.result.value.callable), |e.arguments|)), a.state))
  {
  }

  /** Calling the native clock with no arguments yields the clock reading. */
  lemma ClockCallReadsClock(ctx: Context, c: Clock, paren: Token, m: Machine, fuel: nat)
    ensures Invoke(ctx, Callable(Clock(c)), paren, [], m, fuel) == Evaluated(Ok(Float(ctx.now)), m)
  {
  }

  /** Assignment evaluates its value, stores it in the nearest scope binding the
      name, and yields it: afterwards the name reads back the value and no name has
      been bound or unbound. An unbound name fails with `UndefinedVariable`. */
  lemma AssignStores(ctx: Context, e: Expr, m: Machine, fuel: nat)
    requires e.Assign?
    ensures var r := Eval(ctx, e, m, fuel);
      r.result.Ok? ==>
        r.state.environment.Get(e.name) == Ok(r.result.value) &&
        r.state.environment.Defined() == Eval(ctx, e.newValue, m, fuel).state.environment.Defined()
    ensures var r := Eval(ctx, e, m, fuel);
      var a := Eval(ctx, e.newValue, m, fuel);
      a.result.Ok? && (e.newValue.Literal? ==> e.newValue.value.Some?) &&
      e.name.lexeme !in a.state.environment.Defined() ==>
        r == Evaluated(Err(UndefinedVariable(e.name.lexeme)), a.state)
  {
    var r := Eval(ctx, e, m, fuel);
    var a := Eval(ctx, e.newValue, m, fuel);
    if a.result.Ok? && (e.newValue.Literal? ==> e.newValue.value.Some?) {
      assert a.state == m || !e.newValue.Literal?;
      var env := a.state.environment;
      AssignUpdatesNearest(env, e.name, a.result.value);
      if env.Assign(e.name, a.result.value).Ok? {
        AssignThenGet(env, e.name, a.result.value);
        AssignKeepsDefined(env, e.name, a.result.value);
      }
    }
  }

  // ---------------------------------------------------------------------------
  // Calls

  /** The lexemes of a parameter list. */
  function Names(params: seq<Token>): (names: seq<string>)
    ensures |names| == |params|
    ensures forall k :: 0 <= k < |params| ==> names[k] == params[k].lexeme
  {
    seq(|params|, k requires 0 <= k < |params| => params[k].lexeme)
  }

  /** `define` each name, in order, to its value. */
  function DefineAll(env: Environment, names: seq<string>, values: seq<LitType>): (e: Environment)
    requires |names| == |values|
    ensures e.enclosing == env.enclosing
    decreases |names|
  {
    if |names| == 0 then env
    else DefineAll(env.Define(names[0], values[0]), names[1..], values[1..])
  }

  /** The names bound by `DefineAll` are the old ones and the new ones. */
  lemma {:induction false} DefineAllKeys(env: Environment, names: seq<string>, values: seq<LitType>)
    requires |names| == |values|
    ensures DefineAll(env, names, values).values.Keys == env.values.Keys + set k | 0 <= k < |names| :: names[k]
    decreases |names|
  {
    if |names| > 0 {
      DefineAllKeys(env.Define(names[0], values[0]), names[1..], values[1..]);
      var rest := set k | 0 <= k < |names| - 1 :: names[1..][k];
      var all := set k | 0 <= k < |names| :: names[k];
      assert all == {names[0]} + rest by {
        forall x | x in all ensures x in {names[0]} + rest {
          var k :| 0 <= k < |names| && names[k] == x;
          if k > 0 { assert names[1..][k - 1] == x; }
        }
      }
    }
  }

  /** A name that `DefineAll` does not mention keeps its binding. */
  lemma {:induction false} DefineAllKeepsOthers(env: Environment, names: seq<string>, values: seq<LitType>, x: string)
    requires |names| == |values| && x !in names && x in env.values
    ensures x in DefineAll(env, names, values).values
    ensures DefineAll(env, names, values).values[x] == env.values[x]
    decreases |names|
  {
    if |names| > 0 {
      DefineAllKeepsOthers(env.Define(names[0], values[0]), names[1..], values[1..], x);
    }
  }

  /** After `DefineAll`, the last occurrence of a name is bound to its own value. */
  lemma {:induction false} DefineAllBinds(env: Environment, names: seq<string>, values: seq<LitType>, k: nat)
    requires |names| == |values| && k < |names| && names[k] !in names[k + 1..]
    ensures names[k] in DefineAll(env, names, values).values
    ensures DefineAll(env, names, values).values[names[k]] == values[k]
    decreases |names|
  {
    if k == 0 {
      assert names[1..] == names[k + 1..];
      DefineAllKeepsOthers(env.Define(names[0], values[0]), names[1..], values[1..], names[0]);
    } else {
      assert names[1..][k - 1 + 1..] == names[k + 1..];
      DefineAllBinds(env.Define(names[0], values[0]), names[1..], values[1..], k - 1);
    }
  }

  /** The parameter loop of `LoxFunction::call` evaluates the argument expressions
      exactly as the argument loop of `call_expr` does, fails where that fails, and
      otherwise defines each parameter to its argument's value, in order. */
  lemma {:induction false} BindEvaluatesArguments(ctx: Context, params: seq<Token>, arguments: seq<Expr>, i: nat,
                                                  env: Environment, done: seq<LitType>, m: Machine, fuel: nat)
    requires i <= |params| == |arguments|
    ensures var b := Bind(ctx, params, arguments, i, env, m, fuel);
      var a := EvalArgs(ctx, arguments, i, done, m, fuel);
      b.state == a.state && (b.result.Ok? <==> a.result.Ok?) &&
      (b.result.Err? ==> b.result.error == a.result.error) &&
      (b.result.Ok? ==> b.result.value == DefineAll(env, Names(params)[i..], a.result.value[|done|..]))
    decreases |params| - i
  {
    if i < |params| {
      var x := Eval(ctx, arguments[i], m, fuel);
      if x.result.Ok? {
        var v := x.result.value;
        var env' := env.Define(params[i].lexeme, v);
        BindEvaluatesArguments(ctx, params, arguments, i + 1, env', done + [v], x.state, fuel);
        var a := EvalArgs(ctx, arguments, i + 1, done + [v], x.state, fuel);
        if a.result.Ok? {
          var vals := a.result.value;
          assert vals[|done|] == v by { assert (done + [v])[|done|] == v; }
          assert vals[|done|..][1..] == vals[|done| + 1..];
          assert Names(params)[i..][1..] == Names(params)[i + 1..];
        }
      }
    } else {
      assert Names(params)[i..] == [];
    }
  }

  /** `LoxFunction::call` on a function declaration: the arguments are evaluated
      again in the caller's state, the parameters are bound to them in a fresh scope
      directly under the globals (not under the scope the function was declared
      in), the body runs as a block in that scope, and the call yields `nil`. */
  lemma CallBindsParameters(ctx: Context, f: LoxFunction, arguments: seq<Expr>, m: Machine, fuel: nat)
    requires DeclaresFunction(f) && |arguments| == FunctionArity(f) && fuel > 0
    ensures var d := f.declaration.value;
      var a := EvalArgs(ctx, arguments, 0, [], m, fuel - 1);
      CallFunction(ctx, f, arguments, m, fuel) ==
        if a.result.Err? then Fail(a)
        else
          var scope := DefineAll(CallEnvironment(ctx), Names(d.params), a.result.value);
          var x := ExecBlock(ctx, d.body, 0, a.state.(environment := scope), fuel - 1);
          if x.result.Err? then Fail(x) else Evaluated(Ok(Nil), x.state)
  {
    var d := f.declaration.value;
    var a := EvalArgs(ctx, arguments, 0, [], m, fuel - 1);
    var b := Bind(ctx, d.params, arguments, 0, CallEnvironment(ctx), m, fuel - 1);
    BindEvaluatesArguments(ctx, d.params, arguments, 0, CallEnvironment(ctx), [], m, fuel - 1);
    if b.result.Ok? {
      assert Names(d.params)[0..] == Names(d.params);
      assert a.result.value[0..] == a.result.value;
      assert b.result.value == DefineAll(CallEnvironment(ctx), Names(d.params), a.result.value);
    }
  }

  /** The scope a call's body starts in: parent the globals, bound names exactly the
      parameters, and parameter `k` bound to argument `k` (for a name repeated in the
      list, the last occurrence wins). */
  lemma CallScope(ctx: Context, params: seq<Token>, values: seq<LitType>, k: nat)
    requires |values| == |params| && k < |params| && params[k].lexeme !in Names(params)[k + 1..]
    ensures var scope := DefineAll(CallEnvironment(ctx), Names(params), values);
      scope.enclosing == Some(ctx.globals) &&
      scope.values.Keys == (set j | 0 <= j < |params| :: params[j].lexeme) &&
      scope.values[params[k].lexeme] == values[k]
  {
    var names := Names(params);
    DefineAllKeys(CallEnvironment(ctx), names, values);
    DefineAllBinds(CallEnvironment(ctx), names, values, k);
    assert (set j | 0 <= j < |names| :: names[j]) == set j | 0 <= j < |params| :: params[j].lexeme;
  }

  /** A user function declared with `fun` yields `nil` whenever its call completes:
      a `return` in its body is never turned into the call's value, it leaves the
      call as the `Return` error. */
  lemma CallNeverCatchesReturn(ctx: Context, f: LoxFunction, arguments: seq<Expr>, m: Machine, fuel: nat, v: LitType)
    requires DeclaresFunction(f) && |arguments| == FunctionArity(f) && fuel > 0
    ensures CallFunction(ctx, f, arguments, m, fuel).result.Ok? ==>
      CallFunction(ctx, f, arguments, m, fuel).result.value == Nil
    ensures var d := f.declaration.value;
      var b := Bind(ctx, d.params, arguments, 0, CallEnvironment(ctx), m, fuel - 1);
      b.result.Ok? &&
      ExecBlock(ctx, d.body, 0, b.state.(environment := b.result.value), fuel - 1).result == Err(RuntimeError.Return(v)) ==>
        CallFunction(ctx, f, arguments, m, fuel).result == Err(RuntimeError.Return(v))
  {
  }

  /** A function value whose stored declaration is itself a `return` statement
      yields that statement's value, evaluated in the caller's current environment. */
  lemma StoredReturnYieldsValue(ctx: Context, f: LoxFunction, m: Machine, fuel: nat)
    requires f.declaration.Some? && f.declaration.value.Return? && fuel > 0
    ensures FunctionArity(f) == 0
    ensures CallFunction(ctx, f, [], m, fuel) == Eval(ctx, f.declaration.value.value, m, fuel - 1)
  {
  }

  // ---------------------------------------------------------------------------
  // Statements

  /** `print` appends exactly the printed value to the output. */
  lemma PrintAppends(ctx: Context, s: Statement, m: Machine, fuel: nat)
    requires s.Print?
    ensures var a := Eval(ctx, s.expression, m, fuel);
      a.result.Ok? ==> Exec(ctx, s, m, fuel).state.output == a.state.output + [a.result.value] &&
                       Exec(ctx, s, m, fuel).result == Ok(None)
  {
  }

  /** `var` without an initializer fails; with one, it binds the name to the value
      in the current scope, where `get` then finds it. */
  lemma VarDefines(ctx: Context, s: Statement, m: Machine, fuel: nat)
    requires s.Var?
    ensures s.initializer.None? ==> Exec(ctx, s, m, fuel) == Evaluated(Err(StatementMissingExpression), m)
    ensures s.initializer.Some? ==>
      var a := Eval(ctx, s.initializer.value, m, fuel);
      a.result.Ok? ==>
        Exec(ctx, s, m, fuel).result == Ok(None) &&
        Exec(ctx, s, m, fuel).state.environment.values == a.state.environment.values[s.name.lexeme := a.result.value] &&
        Exec(ctx, s, m, fuel).state.environment.Get(s.name) == Ok(a.result.value)
  {
    if s.initializer.Some? {
      var a := Eval(ctx, s.initializer.value, m, fuel);
      if a.result.Ok? {
        DefineThenGet(a.state.environment, s.name, a.result.value);
      }
    }
  }

  /** A `fun` declaration binds its name, in the current scope, to a function whose
      arity is its parameter count and whose display string names it. */
  lemma DeclaredFunctionIsCallable(ctx: Context, s: Statement, m: Machine, fuel: nat)
    requires s.Function?
    ensures var r := Exec(ctx, s, m, fuel);
      r.result == Ok(None) && r.state.output == m.output &&
      var v := r.state.environment.Get(s.name);
      v.Ok? && v.value.Callable? && v.value.callable.Function? &&
      Arity(v.value.callable) == |s.params| &&
      ToString(v.value.callable) == "<fn " + s.name.lexeme + ">"
  {
    DefineThenGet(m.environment, s.name, FunctionValue(s));
  }

  /** Executing `a + b` is executing `a`, then, if that completed, `b`. */
  lemma {:induction false} BlockShift(ctx: Context, a: seq<Statement>, b: seq<Statement>, j: nat, m: Machine, fuel: nat)
    requires j <= |b|
    ensures ExecBlock(ctx, a + b, |a| + j, m, fuel) == ExecBlock(ctx, b, j, m, fuel)
    decreases |b| - j
  {
    if j < |b| {
      assert (a + b)[|a| + j] == b[j];
      var x := Exec(ctx, b[j], m, fuel);
      if x.result.Ok? {
        BlockShift(ctx, a, b, j + 1, x.state, fuel);
      }
    }
  }

  lemma {:induction false} BlockSequence(ctx: Context, a: seq<Statement>, b: seq<Statement>, i: nat, m: Machine, fuel: nat)
    requires i <= |a|
    ensures ExecBlock(ctx, a + b, i, m, fuel) ==
      var x := ExecBlock(ctx, a, i, m, fuel);
      if x.result.Err? then x else ExecBlock(ctx, b, 0, x.state, fuel)
    decreases |a| - i
  {
    if i < |a| {
      assert (a + b)[i] == a[i];
      var x := Exec(ctx, a[i], m, fuel);
      if x.result.Ok? {
        BlockSequence(ctx, a, b, i + 1, x.state, fuel);
      }
    } else {
      BlockShift(ctx, a, b, 0, m, fuel);
    }
  }

  /** Once a statement of a block fails, in particular with the `Return` signal,
      nothing after it runs: whatever follows, the block ends the same way. */
  lemma ErrorSkipsRest(ctx: Context, a: seq<Statement>, b: seq<Statement>, m: Machine, fuel: nat)
    requires ExecBlock(ctx, a, 0, m, fuel).result.Err?
    ensures ExecBlock(ctx, a + b, 0, m, fuel) == ExecBlock(ctx, a, 0, m, fuel)
  {
    BlockSequence(ctx, a, b, 0, m, fuel);
  }

  /** A block runs in a new scope nested in the current one, and that scope stays
      current afterwards: a variable declared in a block is still visible after
      it. */
  lemma BlockLeavesScope(ctx: Context, sp: Spans.Span, sp': Spans.Span, lit: Spans.Span, name: Token, v: LitType,
                         m: Machine, fuel: nat)
    ensures Exec(ctx, Block(sp, []), m, fuel) ==
      Evaluated(Ok(None), m.(environment := Environment(map[], Some(m.environment))))
    ensures var r := Exec(ctx, Block(sp, [Var(sp', name, Some(Literal(lit, Some(v))))]), m, fuel);
      r == Evaluated(Ok(None), m.(environment := Environment(map[name.lexeme := v], Some(m.environment)))) &&
      r.state.environment.Get(name) == Ok(v)
  {
    var decl := Var(sp', name, Some(Literal(lit, Some(v))));
    var inner := m.(environment := Environment.New(Some(m.environment)));
    var x := Exec(ctx, decl, inner, fuel);
    assert Eval(ctx, Literal(lit, Some(v)), inner, fuel) == Evaluated(Ok(v), inner);
    assert inner.environment.Define(name.lexeme, v) == Environment(map[name.lexeme := v], Some(m.environment));
    assert x == Evaluated(Ok(None), m.(environment := Environment(map[name.lexeme := v], Some(m.environment))));
    assert ExecBlock(ctx, [decl], 1, x.state, fuel) == Evaluated(Ok(None), x.state);
  }

  /** `if` evaluates its condition once and runs at most one branch, in the state
      the condition left: the then-branch on a truthy value, the else-branch on a
      falsy one, and nothing (yielding no value) when a falsy condition has no
      else-branch. */
  lemma IfEvaluatesConditionOnce(ctx: Context, s: Statement, m: Machine, fuel: nat)
    requires s.If?
    ensures var a := Eval(ctx, s.condition, m, fuel);
      a.result.Err? ==> Exec(ctx, s, m, fuel) == Fail(a)
    ensures var a := Eval(ctx, s.condition, m, fuel);
      a.result.Ok? && IsTruthy(a.result.value) ==> Exec(ctx, s, m, fuel) == Exec(ctx, s.thenBranch, a.state, fuel)
    ensures var a := Eval(ctx, s.condition, m, fuel);
      a.result.Ok? && !IsTruthy(a.result.value) && s.elseBranch.Some? ==>
      Exec(ctx, s, m, fuel) == Exec(ctx, s.elseBranch.value, a.state, fuel)
    ensures var a := Eval(ctx, s.condition, m, fuel);
      a.result.Ok? && !IsTruthy(a.result.value) && s.elseBranch.None? ==>
      Exec(ctx, s, m, fuel) == Evaluated(Ok(None), a.state)
  {
  }

  /** `while` tests its condition first: a failing condition is the loop's error, a
      falsy one ends the loop with no value in the state the condition left. After a
      truthy test the body runs once, and a body that fails or yields a value (an
      expression statement, a block holding a `return` signal, ...) ends the loop
      with exactly that outcome. */
  lemma WhileStops(ctx: Context, s: Statement, m: Machine, fuel: nat)
    requires s.While?
    ensures var a := Eval(ctx, s.condition, m, fuel);
      a.result.Err? ==> Exec(ctx, s, m, fuel) == Fail(a)
    ensures var a := Eval(ctx, s.condition, m, fuel);
      a.result.Ok? && !IsTruthy(a.result.value) ==> Exec(ctx, s, m, fuel) == Evaluated(Ok(None), a.state)
    ensures var a := Eval(ctx, s.condition, m, fuel);
      a.result.Ok? && IsTruthy(a.result.value) ==>
      var b := Exec(ctx, s.loopBody, a.state, fuel);
      (b.result.Err? || b.result.value.Some?) ==> Exec(ctx, s, m, fuel) == b
    ensures var a := Eval(ctx, s.condition, m, fuel);
      a.result.Ok? && IsTruthy(a.result.value) && s.loopBody.Expression? ==>
      var b := Eval(ctx, s.loopBody.expression, a.state, fuel);
      b.result.Ok? ==> Exec(ctx, s, m, fuel) == Evaluated(Ok(Some(b.result.value)), b.state)
  {
    var a := Eval(ctx, s.condition, m, fuel);
    if a.result.Ok? && IsTruthy(a.result.value) && s.loopBody.Expression? {
      var b := Eval(ctx, s.loopBody.expression, a.state, fuel);
      if b.result.Ok? {
        assert Exec(ctx, s.loopBody, a.state, fuel) == Evaluated(Ok(Some(b.result.value)), b.state);
      }
    }
  }

  /** One round of `while`: when the condition is truthy and the body completes
      without a value, the loop starts again from the body's state, testing the
      condition anew; each round takes one unit of fuel, and a loop that still wants
      to go on when the fuel is spent stops with `OutOfFuel`. */
  lemma WhileRound(ctx: Context, s: Statement, m: Machine, fuel: nat)
    requires s.While?
    ensures var a := Eval(ctx, s.condition, m, fuel);
      a.result.Ok? && IsTruthy(a.result.value) ==>
      var b := Exec(ctx, s.loopBody, a.state, fuel);
      b.result.Ok? && b.result.value.None? ==>
      Exec(ctx, s, m, fuel) == if fuel == 0 then Evaluated(Err(OutOfFuel), b.state)
                               else Exec(ctx, s, b.state, fuel - 1)
  {
    var a := Eval(ctx, s.condition, m, fuel);
    if a.result.Ok? && IsTruthy(a.result.value) {
      var b := Exec(ctx, s.loopBody, a.state, fuel);
      if b.result.Ok? && b.result.value.None? && fuel > 0 {
        assert Exec(ctx, s, b.state, fuel - 1) == ExecWhile(ctx, s, b.state, fuel - 1);
      }
    }
  }
}
