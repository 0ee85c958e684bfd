/** The `Interpreter` object of rlok_lib/src/interpreter.rs: its `environment`
    field is replaced by `var`, `fun`, blocks, assignments and calls, and `print`
    appends to `output`. Each method is proved to compute what the corresponding
    function of module `Semantics` says, including the state it leaves behind when
    it fails. */
module Interpreting {
  import opened Wrappers
  import opened Tokens
  import opened Ast
  import opened Errors
  import opened Environments
  import opened Callables
  import opened Semantics

  class Interpreter {
    /** The global scope: `clock` and nothing else, fixed after `build`. */
    const globals: Environment
    /** What `clock()` returns during this run. */
    const now: real
    var environment: Environment
    var output: seq<LitType>

    function Ctx(): Context {
      Context(globals, now)
    }

    function State(): Machine
      reads this
    {
      Machine(environment, output)
    }

    /** `Interpreter::build`: the globals bind `clock` to the native clock, and the
        current environment starts as a copy of them. */
    constructor Build(now: real)
      ensures globals == Environment.New(None).Define("clock", Callable(Clock(NewClock("clock", None))))
      ensures environment == globals && output == [] && this.now == now
    {
      var g := Environment.New(None).Define("clock", Callable(Clock(NewClock("clock", None))));
      globals := g;
      this.now := now;
      environment := g;
      output := [];
    }

    // -------------------------------------------------------------------------
    // Expressions

    method EvaluateExpr(e: Expr, fuel: nat) returns (r: Result<LitType, RuntimeError>)
      modifies this
      ensures Evaluated(r, State()) == Eval(Ctx(), e, old(State()), fuel)
      decreases fuel, e, 3
    {
      match e
      case Binary(_, _, _, _) => r := BinaryExpr(e, fuel);
      case Grouping(_, _) => r := GroupingExpr(e, fuel);
      case Unary(_, _, _) => r := UnaryExpr(e, fuel);
      case Literal(_, _) => r := LiteralExpr(e);
      case Variable(_, _) => r := VarExpr(e);
      case Assign(_, _, _) => r := AssignExpr(e, fuel);
      case Logical(_, _, _, _) => r := LogicalExpr(e, fuel);
      case Call(_, _, _, _) => r := CallExpr(e, fuel);
    }

    method LiteralExpr(e: Expr) returns (r: Result<LitType, RuntimeError>)
      requires e.Literal?
      ensures r == LiteralValue(e.value)
    {
      if e.value.Some? {
        return Ok(e.value.value);
      }
      return Err(InvalidLiteral);
    }

    method GroupingExpr(e: Expr, fuel: nat) returns (r: Result<LitType, RuntimeError>)
      requires e.Grouping?
      modifies this
      ensures Evaluated(r, State()) == Eval(Ctx(), e.expression, old(State()), fuel)
      decreases fuel, e, 2
    {
      r := EvaluateExpr(e.expression, fuel);
    }

    method UnaryExpr(e: Expr, fuel: nat) returns (r: Result<LitType, RuntimeError>)
      requires e.Unary?
      modifies this
      ensures Evaluated(r, State()) == Eval(Ctx(), e, old(State()), fuel)
      decreases fuel, e, 2
    {
      var right :- EvaluateExpr(e.right, fuel);
      match e.operator.ty
      case Minus =>
        if right.Float? {
          return Ok(Float(-right.f));
        }
        r := Err(InvalidUnary);
      case Bang =>
        match right {
          case Bool(b) => r := Ok(Bool(!b));
          case Nil => r := Ok(Bool(true));
          case _ => r := Err(RighthandBoolorNil);
        }
      case _ => r := Err(UnaryExpects);
    }

    method BinaryExpr(e: Expr, fuel: nat) returns (r: Result<LitType, RuntimeError>)
      requires e.Binary?
      modifies this
      ensures Evaluated(r, State()) == Eval(Ctx(), e, old(State()), fuel)
      decreases fuel, e, 2
    {
      var left :- EvaluateExpr(e.left, fuel);
      var right :- EvaluateExpr(e.right, fuel);
      r := BinaryOp(e.operator, left, right);
    }

    method VarExpr(e: Expr) returns (r: Result<LitType, RuntimeError>)
      requires e.Variable?
      ensures r == environment.Get(e.name)
    {
      r := environment.Get(e.name);
    }

    method AssignExpr(e: Expr, fuel: nat) returns (r: Result<LitType, RuntimeError>)
      requires e.Assign?
      modifies this
      ensures Evaluated(r, State()) == Eval(Ctx(), e, old(State()), fuel)
      decreases fuel, e, 2
    {
      var value: LitType;
      if e.newValue.Literal? {
        if e.newValue.value.None? {
          return Err(InvalidAssignmentTarget(e.name));
        }
        value := e.newValue.value.value;
      } else {
        value :- EvaluateExpr(e.newValue, fuel);
      }
      var updated :- environment.Assign(e.name, value);
      environment := updated;
      r := Ok(value);
    }

    method LogicalExpr(e: Expr, fuel: nat) returns (r: Result<LitType, RuntimeError>)
      requires e.Logical?
      modifies this
      ensures Evaluated(r, State()) == Eval(Ctx(), e, old(State()), fuel)
      decreases fuel, e, 2
    {
      var left :- EvaluateExpr(e.left, fuel);
      if e.operator.ty.OR? {
        if IsTruthy(left) {
          return Ok(left);
        }
      } else {
        if !IsTruthy(left) {
          return Ok(left);
        }
      }
      r := EvaluateExpr(e.right, fuel);
    }

    method CallExpr(e: Expr, fuel: nat) returns (r: Result<LitType, RuntimeError>)
      requires e.Call?
      modifies this
      ensures Evaluated(r, State()) == Eval(Ctx(), e, old(State()), fuel)
      decreases fuel, e, 2
    {
      var callee :- EvaluateExpr(e.callee, fuel);
      ghost var afterCallee := State();
      var args: seq<LitType> := [];
      for i := 0 to |e.arguments|
        invariant EvalArgs(Ctx(), e.arguments, i, args, State(), fuel) ==
                  EvalArgs(Ctx(), e.arguments, 0, [], afterCallee, fuel)
      {
        assert e.arguments[i] < e;
        var value :- EvaluateExpr(e.arguments[i], fuel);
        args := args + [value];
      }
      if callee.Callable? {
        match callee.callable
        case Function(f) =>
          if |e.arguments| != FunctionArity(f) {
            return Err(IncorrectArgumentCount(FunctionArity(f), |e.arguments|));
          }
          r := CallFunction(f, e.arguments, fuel);
          return;
        case Clock(c) =>
          if |e.arguments| != ClockArity(c) {
            return Err(IncorrectArgumentCount(ClockArity(c), |e.arguments|));
          }
          return Ok(Float(now));
      }
      r := Err(NotCallable(e.paren));
    }

    /** `LoxFunction::call`. */
    method CallFunction(f: LoxFunction, arguments: seq<Expr>, fuel: nat) returns (r: Result<LitType, RuntimeError>)
      requires |arguments| == FunctionArity(f)
      modifies this
      ensures Evaluated(r, State()) == Semantics.CallFunction(Ctx(), f, arguments, old(State()), fuel)
      decreases fuel, arguments, 1
    {
      if fuel == 0 {
        return Err(OutOfFuel);
      }
      var env := Environment.New(Some(globals));
      if f.declaration.Some? {
        var declaration := f.declaration.value;
        if declaration.Function? {
          var params := declaration.params;
          for index := 0 to |params|
            invariant Bind(Ctx(), params, arguments, index, env, State(), fuel - 1) ==
                      Bind(Ctx(), params, arguments, 0, CallEnvironment(Ctx()), old(State()), fuel - 1)
          {
            var value :- EvaluateExpr(arguments[index], fuel - 1);
            env := env.Define(params[index].lexeme, value);
          }
          var _ :- BlockStatement(declaration.body, env, fuel - 1);
        }
        if declaration.Return? {
          r := EvaluateExpr(declaration.value, fuel - 1);
          return;
        }
      }
      r := Ok(Nil);
    }

    // -------------------------------------------------------------------------
    // Statements

    method EvaluateStatement(s: Statement, fuel: nat) returns (r: Result<Option<LitType>, RuntimeError>)
      modifies this
      ensures Evaluated(r, State()) == Exec(Ctx(), s, old(State()), fuel)
      decreases fuel, s, 3
    {
      match s
      case Print(_, expression) =>
        var value :- EvaluateExpr(expression, fuel);
        output := output + [value];
        r := Ok(None);
      case Expression(_, expression) =>
        var value :- EvaluateExpr(expression, fuel);
        r := Ok(Some(value));
      case Var(_, _, _) =>
        var _ :- VarStatement(s, fuel);
        r := Ok(None);
      case Block(_, statements) =>
        r := BlockStatement(statements, Environment.New(Some(environment)), fuel);
      case If(_, _, _, _) =>
        r := IfStatement(s, fuel);
      case While(_, _, _) =>
        r := WhileStatement(s, fuel);
      case Function(_, _, _, _) =>
        FunctionStatement(s);
        r := Ok(None);
      case Return(_, _, _) =>
        r := ReturnStatement(s, fuel);
    }

    method VarStatement(s: Statement, fuel: nat) returns (r: Result<(), RuntimeError>)
      requires s.Var?
      modifies this
      ensures Evaluated(if r.Ok? then Ok(None) else Err(r.error), State()) == Exec(Ctx(), s, old(State()), fuel)
      decreases fuel, s, 2
    {
      if s.initializer.Some? {
        var value :- EvaluateExpr(s.initializer.value, fuel);
        environment := environment.Define(s.name.lexeme, value);
        return Ok(());
      }
      r := Err(StatementMissingExpression);
    }

    /** `block_statement`: install `env` and run the statements in it; the previous
        environment is not restored. */
    method BlockStatement(statements: seq<Statement>, env: Environment, fuel: nat)
      returns (r: Result<Option<LitType>, RuntimeError>)
      modifies this
      ensures Evaluated(r, State()) == ExecBlock(Ctx(), statements, 0, old(State()).(environment := env), fuel)
      decreases fuel, statements, 1
    {
      environment := env;
      for i := 0 to |statements|
        invariant ExecBlock(Ctx(), statements, i, State(), fuel) ==
                  ExecBlock(Ctx(), statements, 0, old(State()).(environment := env), fuel)
      {
        var _ :- EvaluateStatement(statements[i], fuel);
      }
      r := Ok(None);
    }

    method IfStatement(s: Statement, fuel: nat) returns (r: Result<Option<LitType>, RuntimeError>)
      requires s.If?
      modifies this
      ensures Evaluated(r, State()) == Exec(Ctx(), s, old(State()), fuel)
      decreases fuel, s, 2
    {
      var condition :- EvaluateExpr(s.condition, fuel);
      if IsTruthy(condition) {
        r := EvaluateStatement(s.thenBranch, fuel);
      } else if s.elseBranch.Some? {
        r := EvaluateStatement(s.elseBranch.value, fuel);
      } else {
        r := Ok(None);
      }
    }

    method WhileStatement(s: Statement, fuel: nat) returns (r: Result<Option<LitType>, RuntimeError>)
      requires s.While?
      modifies this
      ensures Evaluated(r, State()) == ExecWhile(Ctx(), s, old(State()), fuel)
      decreases fuel, s, 2
    {
      var budget: nat := fuel;
      while true
        invariant budget <= fuel
        invariant ExecWhile(Ctx(), s, State(), budget) == ExecWhile(Ctx(), s, old(State()), fuel)
        decreases budget
      {
        var condition :- EvaluateExpr(s.condition, budget);
        if !IsTruthy(condition) {
          return Ok(None);
        }
        var produced :- EvaluateStatement(s.loopBody, budget);
        if produced.Some? {
          return Ok(produced);
        }
        if budget == 0 {
          return Err(OutOfFuel);
        }
        budget := budget - 1;
      }
    }

    method FunctionStatement(s: Statement)
      requires s.Function?
      modifies this
      ensures environment == old(environment).Define(s.name.lexeme, FunctionValue(s))
      ensures output == old(output)
    {
      environment := environment.Define(s.name.lexeme, Callable(LoxCallable.Function(NewFunction(s.name.lexeme, Some(s)))));
    }

    /** `return_statement`: never completes normally; a value leaves through the
        `Return` error. */
    method ReturnStatement(s: Statement, fuel: nat) returns (r: Result<Option<LitType>, RuntimeError>)
      requires s.Return?
      modifies this
      ensures Evaluated(r, State()) == Exec(Ctx(), s, old(State()), fuel)
      decreases fuel, s, 2
    {
      var value :- EvaluateExpr(s.value, fuel);
      r := Err(RuntimeError.Return(value));
    }
  }
}
