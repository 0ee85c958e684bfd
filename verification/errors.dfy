/** The runtime errors the interpreter raises (the `RuntimeError` variants used in
    rlok_lib/src/interpreter.rs, rlok_lib/src/environment.rs and
    rlok_lib/src/lox_callable.rs). Variants that carry only a copy of the failing
    expression for display carry nothing here. */
module Errors {
  import opened Tokens
  import opened Ast

  datatype RuntimeError =
    | InvalidLiteral
    | RighthandBoolorNil
    | UnaryExpects
    | InvalidUnary
    | DivideByZero
    | InvalidNumerical(operator: Token)
    | InvalidStringConcat
    | BinaryTypeMismatch
    | UndefinedVariable(name: string)
    | StatementMissingExpression
    | InvalidAssignmentTarget(target: Token)
    | IncorrectArgumentCount(arity: nat, given: nat)
    | NotCallable(paren: Token)
      /** Not a failure: the signal `return` raises to leave a function body. */
    | Return(value: LitType)
      /** The evaluation budget of the model ran out (a loop or a call chain that
          did not finish within the given fuel). */
    | OutOfFuel
}
