/** The pure parts of the callable values (rlok_lib/src/lox_callable.rs): building
    them, their names, their arities and their display strings. Invoking a user
    function changes the interpreter's state and is modelled with the evaluator
    (module `Semantics`, and `Interpreter.CallFunction`). */
module Callables {
  import opened Wrappers
  import opened Tokens
  import opened Ast

  /** The declaration is a `Statement::Function`: the only shape that gives a user
      function parameters and a printable name. */
  predicate DeclaresFunction(f: LoxFunction) {
    f.declaration.Some? && f.declaration.value.Function?
  }

  /** `LoxFunction::new`. */
  function NewFunction(callee: string, declaration: Option<Statement>): (f: LoxFunction)
    ensures FunctionCallee(f) == callee
    ensures f.declaration == declaration
  {
    LoxFunction(declaration, callee)
  }

  /** `LoxFunction::callee`. */
  function FunctionCallee(f: LoxFunction): string {
    f.callee
  }

  /** `LoxFunction::arity`: the parameter count of a function declaration; every
      other declaration, and no declaration at all, takes no arguments. */
  function FunctionArity(f: LoxFunction): (n: nat)
    ensures DeclaresFunction(f) ==> n == |f.declaration.value.params|
    ensures !DeclaresFunction(f) ==> n == 0
  {
    if f.declaration.Some? then
      match f.declaration.value
      case Function(_, _, params, _) => |params|
      case _ => 0
    else 0
  }

  /** `LoxFunction::to_string`. */
  function FunctionToString(f: LoxFunction): (s: string)
    ensures DeclaresFunction(f) ==> s == "<fn " + f.declaration.value.name.lexeme + ">"
    ensures !DeclaresFunction(f) ==> s == "<fn>"
  {
    if f.declaration.Some? then
      match f.declaration.value
      case Function(_, name, _, _) => "<fn " + name.lexeme + ">"
      case _ => "<fn>"
    else "<fn>"
  }

  /** `Clock::new`: the declaration argument is ignored. */
  function NewClock(callee: string, declaration: Option<Statement>): (c: Clock)
    ensures ClockCallee(c) == callee
  {
    ClockFn(callee)
  }

  /** `Clock::callee`. */
  function ClockCallee(c: Clock): string {
    c.callee
  }

  /** `Clock::arity`: the native clock takes no arguments. */
  function ClockArity(c: Clock): (n: nat)
    ensures n == 0
  {
    0
  }

  /** `Clock::to_string`. */
  function ClockToString(c: Clock): (s: string)
    ensures s == "<native fn>"
  {
    "<native fn>"
  }

  /** The arity `call_expr` checks the argument count against. */
  function Arity(c: LoxCallable): (n: nat)
    ensures c.Clock? ==> n == 0
    ensures c.Function? ==> n == FunctionArity(c.fn)
  {
    match c
    case Function(f) => FunctionArity(f)
    case Clock(k) => ClockArity(k)
  }

  /** The display string of a callable value. */
  function ToString(c: LoxCallable): (s: string)
    ensures c.Clock? ==> s == ClockToString(c.clock)
    ensures c.Function? ==> s == FunctionToString(c.fn)
  {
    match c
    case Function(f) => FunctionToString(f)
    case Clock(k) => ClockToString(k)
  }

  /** A user function with parameters was necessarily declared by a function
      statement, and its display string then names it. */
  lemma PositiveArityMeansDeclared(f: LoxFunction)
    requires FunctionArity(f) > 0
    ensures DeclaresFunction(f)
    ensures FunctionToString(f) != "<fn>"
  {
  }

  /** The name shown by `to_string` can be read back from the string: it is the text
      between `"<fn "` and the closing `>`. */
  lemma FunctionNameRecoverable(f: LoxFunction)
    requires DeclaresFunction(f)
    ensures var s := FunctionToString(f);
      |s| == |f.declaration.value.name.lexeme| + 5 &&
      s[..4] == "<fn " && s[|s| - 1] == '>' &&
      s[4..|s| - 1] == f.declaration.value.name.lexeme
  {
    var n := f.declaration.value.name.lexeme;
    var s := FunctionToString(f);
    assert s == "<fn " + n + ">";
    assert s[4..|s| - 1] == n;
  }

  /** The display string tells the native clock apart from every user function. */
  lemma NativeDisplayIsDistinct(c: LoxCallable)
    ensures ToString(c) == "<native fn>" <==> c.Clock?
  {
    if c.Function? {
      var s := ToString(c);
      assert s[1] == 'f';
      assert "<native fn>"[1] == 'n';
    }
  }
}
