# rlok in Dafny

A verified model of the core of `rlok_lib`, a tree-walking interpreter for a
Lox-like language written in Rust. The model covers six parts of the library:

- the scanner, which turns source text into tokens;
- the recursive-descent expression parser, with its own small expression tree;
- the span helpers and the span excerpt printer `SpanParser`;
- the scope chain `Environment`;
- the two callables, a user function `LoxFunction` and the native `Clock`;
- the `Interpreter` evaluator for expressions and statements.

Each source file keeps its own form:

- The `Scanner`, `Parser` and `Interpreter` objects mutate their fields, so
  each is a Dafny `class`. Its methods are proved equal to pure specification
  functions on values:
  - `Scanning.LexFrom` / `LexToken` for the scanner;
  - `Parsing.Expression` and its sibling rules for the parser;
  - `Semantics.Eval` / `Exec` for the interpreter.
- `Environment` derives `Clone` and owns its parent through a `Box`. It is
  therefore a recursive datatype, and `define` and `assign` return the
  updated environment.
- `Span` is a plain value. `SpanParser::parse` walks an index outward over
  the token list, so it is a method with loops.

The evaluator's state is a `Machine`: the current environment plus the list of
printed values. The fixed context is a `Context`: the globals environment plus
the clock reading. Every specification function takes a `fuel` budget so that
it is total. A run that exhausts the budget ends in the model-only error
`OutOfFuel`. Module `FuelFacts` proves that a result other than `OutOfFuel` never
depends on the budget.

The model follows the code as written, including behaviour that departs from
textbook Lox. Each quirk is stated and proved:

- **Binary minus.** `unary` parses a primary first and then an optional `!`/`-`
  with its operand. So `1 - 2` parses to the unary `-2`, and a leading `-1` is
  rejected. See `ParseFacts.SubtractionBecomesUnary`,
  `ParseFacts.LeadingMinusRejected` and `ParseFacts.NoSubtractionNoGreaterEqual`.
- **No `>=` in comparisons.** The comparison level lists `>`, `<=`, `<`, `<=`.
  `>=` therefore ends the expression, and `parse` ignores trailing tokens.
  See `ParseFacts.GreaterEqualEndsExpression`.
- **Missing right operands.** A binary operator whose right operand is missing
  is dropped silently. See `ParseFacts.MissingOperandDropped`.
- **Arguments evaluated twice.** `call_expr` evaluates the arguments and then
  `LoxFunction::call` evaluates the argument expressions again, once per
  parameter. See `SemanticFacts.CallChecks` and
  `SemanticFacts.BindEvaluatesArguments`.
- **Calls run under the globals.** A call's scope is a fresh scope whose parent
  is the globals. The caller's environment is not its parent. See
  `SemanticFacts.CallScope`.
- **Scopes are never restored.** `block_statement` installs its new scope and
  never puts the old one back. See `SemanticFacts.BlockLeavesScope`.
- **`return` escapes.** `return` produces an error value that no caller
  catches, and a completed call of a `fun` yields `nil`. See
  `SemanticFacts.CallNeverCatchesReturn`.
- **Equality only on numbers.** `==` works only on two numbers: `nil == nil`
  is a type mismatch. `!=` is not among the numeric operators, so on two
  numbers it fails with `InvalidNumerical`. See
  `SemanticFacts.EqualityOnlyOnNumbers`.
- **Unusual truthiness.** A number is truthy when it is positive, a string when
  it is non-empty, and `nil` and callables are falsy. See
  `SemanticFacts.TruthTable`.

Files:

| file | contents |
|---|---|
| `wrappers.dfy` | `Option`, `Result` |
| `tokens.dfy` | token kinds and tokens |
| `span.dfy` | `Span` and `SpanParser` |
| `ast.dfy` | runtime values, callables, expressions and statements |
| `errors.dfy` | runtime errors |
| `scanner.dfy` | the scanner |
| `scan_facts.dfy` | properties of the scanner |
| `parser.dfy` | the parser |
| `parse_facts.dfy` | properties of the parser |
| `environment.dfy` | the scope chain and its properties |
| `callable.dfy` | the callables |
| `semantics.dfy` | the evaluator as functions |
| `interpreter.dfy` | the `Interpreter` class |
| `semantic_facts.dfy` | properties of the evaluator |
| `fuel_facts.dfy` | fuel independence |

## Model

| member | source | states |
|---|---|---|
| Scanning.Keywords | rlok_lib/src/scanner.rs:17-33 | the sixteen reserved words, each mapped to its own keyword kind; `ScanFacts.KeywordsNeverEof` proves no entry is `EOF`, and `ScanFacts.IdentifierToken` that a word is typed by this table or else as `Ident` |
| Scanning.IsDigit | rlok_lib/src/scanner.rs:145-147 | exactly the characters `0` to `9`; `ScanFacts.NumberToken` states that a number token is the maximal run they start |
| Scanning.IsAlpha | rlok_lib/src/scanner.rs:162-164 | exactly the ASCII letters and `_`; `ScanFacts.IdentifierToken` states that a word starts with one of them |
| Scanning.IsAlphaNumeric | rlok_lib/src/scanner.rs:166-168 | a letter, `_` or a digit; `ScanFacts.IdentifierToken` states that a word is the maximal run of them |
| Scanning.NewlinesSplit | rlok_lib/src/scanner.rs:109-115 | the number of line feeds in a stretch of text is the sum over any split of that stretch |
| Scanning.RunEnd | rlok_lib/src/scanner.rs:110-115 | the string loop (and, with a line feed as the stop character, the comment loop at lines 212-215) stops at the first stop character after the start, or at the end of the text, and passes none |
| Scanning.DigitsEnd | rlok_lib/src/scanner.rs:132-134 | the digit loop stops at the first non-digit (or the end) and consumes only digits |
| Scanning.IdentEnd | rlok_lib/src/scanner.rs:150-152 | the identifier loop stops at the first character that is not alphanumeric or `_`, and consumes only such characters |
| Scanning.OperatorStep | rlok_lib/src/scanner.rs:183-210 | `!`, `=`, `<`, `>` always produce a token and consume one or two characters |
| Scanning.SlashStep | rlok_lib/src/scanner.rs:211-219 | `/` always succeeds and consumes at least one character |
| Scanning.StringStep | rlok_lib/src/scanner.rs:109-129 | a string literal that succeeds consumes at least its opening quote and stays inside the text |
| Scanning.NumberStep | rlok_lib/src/scanner.rs:131-143 | a number always succeeds and consumes at least one character |
| Scanning.IdentStep | rlok_lib/src/scanner.rs:149-160 | an identifier always succeeds and consumes at least one character |
| Scanning.LexToken | rlok_lib/src/scanner.rs:170-237 | every successful step of `scan_token` makes progress and stays inside the text |
| Scanning.LexFromStep | rlok_lib/src/scanner.rs:44-52 | `scan_tokens` from a position fails with the step's error, or is the step's token prepended to the scan from the step's end |
| Scanning.LexFrom | rlok_lib/src/scanner.rs:44-52 | the scan of the rest of the text from a cursor and line: `LexFromStep` unfolds it one step, `ScanFacts.ScanStopsAtFirstError` shows the first failing step decides it, and `ScanFacts.ScanEndsWithEof` that a success ends in exactly one `EOF` on the final line |
| Scanning.Lex | rlok_lib/src/scanner.rs:44-52 | the scan of a whole text from cursor 0 on line 1, what `Scanner.ScanTokens` returns on a fresh scanner; `ScanFacts.LexEndsWithEof` states its `EOF` ending |
| Scanning.Scanner.Build | rlok_lib/src/scanner.rs:16-42 | a new scanner is at position 0, on line 1, with no tokens |
| Scanning.Scanner.ScanTokens | rlok_lib/src/scanner.rs:44-52 | the loop returns the tokens already gathered followed by the specification scan `LexFrom` of the rest of the text; on success the scanner holds exactly the returned list and its cursor is at the end of the text; the token list only grows |
| Scanning.Scanner.IsEnd | rlok_lib/src/scanner.rs:54-56 | true exactly when the cursor has reached the end of the text |
| Scanning.Scanner.Advance | rlok_lib/src/scanner.rs:58-62 | returns the character under the cursor and moves one place |
| Scanning.Scanner.AddToken | rlok_lib/src/scanner.rs:64-68 | appends one token whose lexeme is the text from `start` to the cursor, with no literal |
| Scanning.Scanner.AddTokenVal | rlok_lib/src/scanner.rs:70-78 | appends one token with that lexeme and the given literal |
| Scanning.Scanner.MatchChar | rlok_lib/src/scanner.rs:80-89 | true and consumes exactly when the next character is the expected one |
| Scanning.Scanner.Peek | rlok_lib/src/scanner.rs:91-97 | the character under the cursor, or `'\0'` at the end |
| Scanning.Scanner.PeekNext | rlok_lib/src/scanner.rs:99-107 | the character after the cursor, or `'\0'` past the end |
| Scanning.Scanner.String | rlok_lib/src/scanner.rs:109-129 | fails with the specification step's error, leaving the cursor at the end of the text, the line at the error's line and the tokens unchanged; or appends its token and moves to its end and line |
| Scanning.Scanner.Number | rlok_lib/src/scanner.rs:131-143 | appends the number token of the specification step and moves to its end |
| Scanning.Scanner.Identifier | rlok_lib/src/scanner.rs:149-160 | appends the identifier or keyword token of the specification step and moves to its end |
| Scanning.Scanner.ScanToken | rlok_lib/src/scanner.rs:170-237 | each character class does what `LexToken` says: the same token, end and line; or the same error, with no token pushed, the line at the error's line and the cursor past the offending character (at the end of the text for an unterminated string) |
| ScanFacts.StepCountsLines | rlok_lib/src/scanner.rs:170-237 | after one step, the line counter has grown by exactly the number of line feeds consumed |
| ScanFacts.StepNeverEof | rlok_lib/src/scanner.rs:170-237 | no step emits an `EOF` token, keywords included |
| ScanFacts.KeywordsNeverEof | rlok_lib/src/scanner.rs:16-33 | no keyword maps to `EOF` |
| ScanFacts.ScanEndsWithEof | rlok_lib/src/scanner.rs:44-52 | a successful scan ends with exactly one `EOF` token, which has an empty lexeme and is on the starting line plus the line feeds that remain |
| ScanFacts.LexEndsWithEof | rlok_lib/src/scanner.rs:44-52 | a whole successful scan ends with the one `EOF`, on line 1 plus the number of line feeds in the text |
| ScanFacts.OperatorToken | rlok_lib/src/scanner.rs:183-210 | the two-character operator exactly when `=` follows, and otherwise the one-character operator |
| ScanFacts.CommentSkipped | rlok_lib/src/scanner.rs:211-215 | `//` emits nothing, keeps the line, and stops just before the next line feed |
| ScanFacts.WhitespaceSkipped | rlok_lib/src/scanner.rs:221-222 | a blank emits nothing and keeps the line; a line feed emits nothing and adds one to the line |
| ScanFacts.StringToken | rlok_lib/src/scanner.rs:109-129 | a string fails with "Unterminated string." exactly when no closing quote follows; otherwise its lexeme is quoted and its literal is the text between the quotes |
| ScanFacts.StringStepOutcome | rlok_lib/src/scanner.rs:109-129 | the same as `StringToken`, for the string step itself |
| ScanFacts.QuotedText | rlok_lib/src/scanner.rs:123-126 | the text between the two quotes is the lexeme without its first and last character, and contains no quote |
| ScanFacts.NumberToken | rlok_lib/src/scanner.rs:131-143 | a number is the longest run of digits, with at most one inner `.` followed by a digit; its literal is its lexeme |
| ScanFacts.IdentifierToken | rlok_lib/src/scanner.rs:149-160 | an identifier is the longest alphanumeric run; it is the keyword's kind if listed, else `Ident` |
| ScanFacts.UnexpectedCharacter | rlok_lib/src/scanner.rs:223-233 | the step fails with `UnexpectedTokenError` exactly on characters that no case of `scan_token` recognises |
| ScanFacts.ScanStopsAtFirstError | rlok_lib/src/scanner.rs:44-48 | the first failing step's error is the result of the whole scan |
| Parsing.BindsListed | rlok_lib/src/parser.rs:146-237 | an operator token binds at a level exactly when `match_type` at that level lists it |
| Parsing.PrefixListed | rlok_lib/src/parser.rs:242 | the prefix operators are exactly `!` and `-` |
| Parsing.Primary | rlok_lib/src/parser.rs:257-298 | a parsed primary consumes at least one token; an empty result stops at `EOF` |
| Parsing.GroupingRule | rlok_lib/src/parser.rs:279-286 | a parsed grouping consumes at least one token; an empty result stops at `EOF` |
| Parsing.UnaryRule | rlok_lib/src/parser.rs:240-254 | a parsed unary consumes at least one token; an empty result stops at `EOF` |
| Parsing.UnaryRuleOperator | rlok_lib/src/parser.rs:240-254 | after a primary followed by `!`/`-`, the rule wraps the following unary in the operator, or keeps the primary when that unary is empty |
| Parsing.UnaryRuleNoOperator | rlok_lib/src/parser.rs:240-254 | without a following `!`/`-`, unary is the primary |
| Parsing.Operand | rlok_lib/src/parser.rs:146-237 | an operand of a level is parsed by the next tighter level and consumes at least one token |
| Parsing.LevelRule | rlok_lib/src/parser.rs:146-237 | a parsed level consumes at least one token; an empty result stops at `EOF` |
| Parsing.LevelLoop | rlok_lib/src/parser.rs:148-157 | the operator loop never ends empty and never moves backwards |
| Parsing.Expression | rlok_lib/src/parser.rs:138-143 | a parsed expression consumes at least one token; an empty result stops at `EOF` |
| Parsing.Parser.New | rlok_lib/src/parser.rs:72-74 | a new parser stands at token 0 of the given list |
| Parsing.Parser.Peek | rlok_lib/src/parser.rs:76-78 | the token under the cursor |
| Parsing.Parser.Previous | rlok_lib/src/parser.rs:80-82 | the token before the cursor |
| Parsing.Parser.IsEnd | rlok_lib/src/parser.rs:84-86 | true exactly on `EOF` |
| Parsing.Parser.Advance | rlok_lib/src/parser.rs:102-107 | moves one token unless at `EOF`, and returns the token before the cursor |
| Parsing.Parser.Check | rlok_lib/src/parser.rs:109-119 | true exactly when the cursor is not at `EOF` and its token has the given kind |
| Parsing.Parser.MatchType | rlok_lib/src/parser.rs:121-129 | true and consumes one token exactly when the current token has one of the listed kinds |
| Parsing.Parser.Consume | rlok_lib/src/parser.rs:88-100 | succeeds and consumes exactly when `check` holds; otherwise a `TokenError` at the current token with the given message, and no move |
| Parsing.Parser.Parse | rlok_lib/src/parser.rs:131-136 | returns the specification parse of `Expression` from the cursor, and leaves the cursor after it |
| Parsing.Parser.ExpressionMethod | rlok_lib/src/parser.rs:138-143 | computes `Expression` and leaves the cursor at its end |
| Parsing.Parser.Binary | rlok_lib/src/parser.rs:146-237 | each of comma, equality, comparison, term and factor computes `LevelRule` for its level |
| Parsing.Parser.LoopMethod | rlok_lib/src/parser.rs:148-157 | the `while match_type` loop computes `LevelLoop` |
| Parsing.Parser.OperandMethod | rlok_lib/src/parser.rs:146-237 | computes `Operand` |
| Parsing.Parser.UnaryMethod | rlok_lib/src/parser.rs:240-254 | computes `UnaryRule` |
| Parsing.Parser.UnaryTail | rlok_lib/src/parser.rs:242-251 | the part of `unary` after the primary computes `UnaryRule` |
| Parsing.Parser.PrimaryMethod | rlok_lib/src/parser.rs:257-298 | computes `Primary` |
| Parsing.Parser.GroupingMethod | rlok_lib/src/parser.rs:279-286 | computes `GroupingRule` |
| Parsing.Parser.FallthroughMethod | rlok_lib/src/parser.rs:288-297 | `Ok(None)` at `EOF`, else "Expected expression." at the current token |
| ParseFacts.NoSubtractionNoGreaterEqual | rlok_lib/src/parser.rs:182-219 | no parsed tree contains a binary `-` or a binary `>=` |
| ParseFacts.UnaryStops | rlok_lib/src/parser.rs:240-254 | after a unary, the next token is neither `!` nor `-` |
| ParseFacts.OperandStops | rlok_lib/src/parser.rs:146-237 | the same after an operand |
| ParseFacts.LevelStops | rlok_lib/src/parser.rs:146-237 | the same after a level |
| ParseFacts.LoopStops | rlok_lib/src/parser.rs:148-157 | the same after the operator loop |
| ParseFacts.PrimaryShape | rlok_lib/src/parser.rs:257-298 | a primary is a well-shaped tree with no binary at its top |
| ParseFacts.GroupingShape | rlok_lib/src/parser.rs:279-286 | a grouping is a well-shaped tree with no binary at its top |
| ParseFacts.UnaryShape | rlok_lib/src/parser.rs:240-254 | a unary is a well-shaped tree with no binary at its top |
| ParseFacts.UnaryOperatorShape | rlok_lib/src/parser.rs:242-249 | the same when a prefix operator follows the primary |
| ParseFacts.OperandShape | rlok_lib/src/parser.rs:146-237 | an operand has only tighter-binding operators at its top |
| ParseFacts.LevelShape | rlok_lib/src/parser.rs:146-237 | a level's tree has at its top an operator of that level or a tighter one |
| ParseFacts.UnaryNodeShaped | rlok_lib/src/parser.rs:245-248 | wrapping a unary-shaped tree in `!`/`-` keeps it well shaped |
| ParseFacts.BinaryNodeShaped | rlok_lib/src/parser.rs:151-155 | a binary node built by a level's loop is well shaped: its left side binds no looser, its right side binds tighter |
| ParseFacts.OperatorRank | rlok_lib/src/parser.rs:146-237 | the rank of an operator is the rank of the level that lists it |
| ParseFacts.LoopShape | rlok_lib/src/parser.rs:148-157 | the operator loop keeps the tree well shaped (left associative) |
| ParseFacts.ExpressionShape | rlok_lib/src/parser.rs:138-143 | every parsed expression is well shaped |
| ParseFacts.ParsedTreeShape | rlok_lib/src/parser.rs:131-143 | a parsed expression stops before the token that follows it, and is a well-shaped tree with no binary `-` or `>=` |
| ParseFacts.LevelIsUnary | rlok_lib/src/parser.rs:146-237 | when no level operator follows a unary, every level parses just that unary |
| ParseFacts.ExpressionIsUnary | rlok_lib/src/parser.rs:138-161 | then the whole expression is that unary |
| ParseFacts.LevelPasses | rlok_lib/src/parser.rs:146-237 | a level with no matching operator after its operand is the next tighter level |
| ParseFacts.SubtractionBecomesUnary | rlok_lib/src/parser.rs:240-254 | `1 - 2` parses to the unary `-2` |
| ParseFacts.GreaterEqualEndsExpression | rlok_lib/src/parser.rs:182-202 | `1 >= 2` parses to `1` and stops at `>=` |
| ParseFacts.LeadingMinusRejected | rlok_lib/src/parser.rs:288-297 | `-1` is rejected with "Expected expression." at `-` |
| ParseFacts.UnclosedParenRejected | rlok_lib/src/parser.rs:279-286 | `(1` without `)` fails with the "Expected ')' after expression." error at `EOF` |
| ParseFacts.SumGroupsLeft | rlok_lib/src/parser.rs:204-219 | `1 + 2 + 3` groups to the left |
| ParseFacts.MissingOperandDropped | rlok_lib/src/parser.rs:204-219 | `1 +` with no right operand parses to `1` |
| Spans.Span.New | rlok_lib/src/span.rs:119-124 | a new span starts at `first`, with `last` 0 |
| Spans.Span.SetFirstAndLast | rlok_lib/src/span.rs:126-130 | both ends are replaced |
| Spans.Span.SetFirst | rlok_lib/src/span.rs:132-135 | only `first` changes |
| Spans.Span.SetLast | rlok_lib/src/span.rs:137-140 | only `last` changes |
| Spans.Span.Done | rlok_lib/src/span.rs:142-147 | the finished span is an unchanged copy |
| Spans.Span.First | rlok_lib/src/span.rs:149-151 | reads `first` |
| Spans.Span.Last | rlok_lib/src/span.rs:153-155 | reads `last` |
| Spans.GetUnderline | rlok_lib/src/span.rs:13-22 | the given number of spaces, then the given number of carets, then "--- Here" |
| Spans.WidenStart | rlok_lib/src/span.rs:28-38 | the left walk stops just after the nearest `NewLine` before the start, or where the previous index leaves the list, and passes no `NewLine` |
| Spans.WidenEnd | rlok_lib/src/span.rs:39-49 | the right walk stops just before the nearest `NewLine`/`EOF` after the end, or where the next index leaves the list, and passes neither |
| Spans.WidenSpan | rlok_lib/src/span.rs:24-49 | the two loops end exactly where `WidenStart` and `WidenEnd` say |
| Spans.Parse | rlok_lib/src/span.rs:23-115 | panics exactly on the empty underline slice; otherwise "TOKEN OUT OF BOUNDS" exactly when the widened range is outside the list, an underflow of the space count exactly when the run before the span is empty and a token follows the widened range, and else the excerpt of the widened range with the width of `tokens[first..last]` as underline |
| Environments.Environment.New | rlok_lib/src/environment.rs:14-19 | an empty scope under the given parent |
| Environments.Environment.Define | rlok_lib/src/environment.rs:21-23 | only the innermost scope changes, and gains the name |
| Environments.Environment.Get | rlok_lib/src/environment.rs:25-35 | the only error is `UndefinedVariable` for the lexeme |
| Environments.Environment.Assign | rlok_lib/src/environment.rs:37-47 | the only error is `UndefinedVariable`; success implies the name is bound somewhere on the chain |
| Environments.DefinedIsSomeScope | rlok_lib/src/environment.rs:8-11 | a name is defined exactly when some scope of the chain binds it |
| Environments.ScopeIsDefined | rlok_lib/src/environment.rs:8-11 | a name bound in any scope of the chain is defined |
| Environments.GetFindsNearest | rlok_lib/src/environment.rs:25-35 | `get` succeeds exactly when the name is defined, and then yields the innermost binding |
| Environments.GetDelegatesOutward | rlok_lib/src/environment.rs:31-33 | a name not bound locally is looked up in the parent |
| Environments.DefineThenGet | rlok_lib/src/environment.rs:21-35 | `get` after `define` yields the defined value |
| Environments.DefineTouchesOnlyLocalScope | rlok_lib/src/environment.rs:21-23 | `define` replaces only the innermost scope, at that name |
| Environments.AssignUpdatesNearest | rlok_lib/src/environment.rs:37-47 | `assign` fails exactly when the name is undefined; otherwise it changes only the innermost scope that binds the name, at that name |
| Environments.AssignKeepsDefined | rlok_lib/src/environment.rs:37-47 | `assign` never adds or removes a name |
| Environments.AssignThenGet | rlok_lib/src/environment.rs:25-47 | `get` after a successful `assign` yields the assigned value |
| Callables.NewFunction | rlok_lib/src/lox_callable.rs:58-63 | the new function keeps its name and declaration |
| Callables.FunctionCallee | rlok_lib/src/lox_callable.rs:64-66 | the name the function was built with, as the `NewFunction` contract states |
| Callables.FunctionArity | rlok_lib/src/lox_callable.rs:89-101 | the number of parameters of a `fun` declaration, else 0 |
| Callables.FunctionToString | rlok_lib/src/lox_callable.rs:103-115 | `<fn name>` for a `fun` declaration, else `<fn>` |
| Callables.NewClock | rlok_lib/src/lox_callable.rs:36-38 | the clock keeps its name |
| Callables.ClockCallee | rlok_lib/src/lox_callable.rs:39-41 | the name the clock was built with, as the `NewClock` contract states |
| Callables.ClockArity | rlok_lib/src/lox_callable.rs:49-51 | the clock takes no arguments |
| Callables.ClockToString | rlok_lib/src/lox_callable.rs:52-54 | the clock prints as `<native fn>` |
| Callables.Arity | rlok_lib/src/interpreter.rs:514-540 | the arity that `call_expr` checks is the clock's or the function's |
| Callables.ToString | rlok_lib/src/lox_callable.rs:52-115 | the display is the clock's or the function's |
| Callables.PositiveArityMeansDeclared | rlok_lib/src/lox_callable.rs:89-115 | a function with parameters has a `fun` declaration and so a named display |
| Callables.FunctionNameRecoverable | rlok_lib/src/lox_callable.rs:103-115 | the declared name can be read back from between `<fn ` and `>` |
| Callables.NativeDisplayIsDistinct | rlok_lib/src/lox_callable.rs:52-115 | only the clock displays as `<native fn>` |
| Semantics.IsTruthy | rlok_lib/src/interpreter.rs:285-305 | the truth of a value: `SemanticFacts.TruthTable` states it, with numbers truthy only when positive, strings only when non-empty, and nil and callables never |
| Semantics.LiteralValue | rlok_lib/src/interpreter.rs:124-134 | a literal yields its value, and a literal with no value fails with `InvalidLiteral` |
| Semantics.UnaryOp | rlok_lib/src/interpreter.rs:150-182 | `-` succeeds exactly on numbers and negates them; `!` succeeds exactly on booleans and `nil` and gives the negation of their truthiness; each failure has its own error (`InvalidUnary`, `RighthandBoolorNil`, `UnaryExpects`) |
| Semantics.BinaryOp | rlok_lib/src/interpreter.rs:184-232 | number operators succeed except on division by zero, and comparisons give booleans; strings accept only `+`, which concatenates; every other pair of operands is a type mismatch |
| Semantics.ShortCircuits | rlok_lib/src/interpreter.rs:260-268 | the test of `logical_expr`: `or` stops on a truthy left value, every other operator on a falsy one; `SemanticFacts.LogicalShortCircuit` states that the left value is then the result and that otherwise the right operand runs |
| Semantics.CallEnvironment | rlok_lib/src/lox_callable.rs:68 | a call's scope is empty, with the globals as its parent |
| Semantics.FunctionValue | rlok_lib/src/interpreter.rs:373-395 | a `fun` statement yields a function named after it, which keeps the declaration |
| Semantics.Eval | rlok_lib/src/interpreter.rs:545-580 | evaluating an expression only appends to the output |
| Semantics.Store | rlok_lib/src/interpreter.rs:478-501 | assignment yields the assigned value and prints nothing |
| Semantics.EvalArgs | rlok_lib/src/interpreter.rs:509-513 | the argument loop yields one value per argument, after those already gathered |
| Semantics.Invoke | rlok_lib/src/interpreter.rs:514-542 | invoking a value only appends to the output |
| Semantics.CallFunction | rlok_lib/src/lox_callable.rs:67-88 | running a call only appends to the output |
| Semantics.Bind | rlok_lib/src/lox_callable.rs:71-76 | the parameter loop keeps the scope's parent |
| Semantics.Exec | rlok_lib/src/interpreter.rs:406-476 | executing a statement only appends to the output |
| Semantics.ExecBlock | rlok_lib/src/interpreter.rs:357-371 | a block that completes yields no value |
| Semantics.ExecWhile | rlok_lib/src/interpreter.rs:307-318 | a loop only appends to the output |
| Interpreting.Interpreter.Build | rlok_lib/src/interpreter.rs:27-40 | the globals hold only `clock`, and the current environment starts as a copy of them |
| Interpreting.Interpreter.EvaluateExpr | rlok_lib/src/interpreter.rs:545-580 | the result and the new environment and output are those of `Eval` |
| Interpreting.Interpreter.LiteralExpr | rlok_lib/src/interpreter.rs:124-134 | the result of `LiteralValue` |
| Interpreting.Interpreter.GroupingExpr | rlok_lib/src/interpreter.rs:136-148 | evaluates the inner expression as `Eval` does |
| Interpreting.Interpreter.UnaryExpr | rlok_lib/src/interpreter.rs:150-182 | as `Eval` on a unary expression |
| Interpreting.Interpreter.BinaryExpr | rlok_lib/src/interpreter.rs:184-232 | as `Eval` on a binary expression |
| Interpreting.Interpreter.VarExpr | rlok_lib/src/interpreter.rs:234-253 | looks the name up in the current environment |
| Interpreting.Interpreter.LogicalExpr | rlok_lib/src/interpreter.rs:255-270 | as `Eval` on `and`/`or` |
| Interpreting.Interpreter.AssignExpr | rlok_lib/src/interpreter.rs:478-501 | as `Eval` on an assignment |
| Interpreting.Interpreter.CallExpr | rlok_lib/src/interpreter.rs:503-543 | the argument loop and the call compute `Eval` on the call |
| Interpreting.Interpreter.CallFunction | rlok_lib/src/lox_callable.rs:67-88 | the parameter loop and the body compute `Semantics.CallFunction` |
| Interpreting.Interpreter.EvaluateStatement | rlok_lib/src/interpreter.rs:406-476 | the result and the new state are those of `Exec` |
| Interpreting.Interpreter.VarStatement | rlok_lib/src/interpreter.rs:337-355 | as `Exec` on a `var` statement |
| Interpreting.Interpreter.BlockStatement | rlok_lib/src/interpreter.rs:357-371 | installs the given scope and runs the statements as `ExecBlock` does |
| Interpreting.Interpreter.IfStatement | rlok_lib/src/interpreter.rs:320-335 | as `Exec` on `if` |
| Interpreting.Interpreter.WhileStatement | rlok_lib/src/interpreter.rs:307-318 | the loop computes `ExecWhile` |
| Interpreting.Interpreter.FunctionStatement | rlok_lib/src/interpreter.rs:373-395 | defines the name, in the current scope, to the function value; nothing else changes |
| Interpreting.Interpreter.ReturnStatement | rlok_lib/src/interpreter.rs:397-404 | as `Exec` on `return` |
| SemanticFacts.TruthTable | rlok_lib/src/interpreter.rs:285-305 | `nil` and callables are falsy, a boolean is itself, a string is truthy when non-empty, a number when positive |
| SemanticFacts.UnaryInvolution | rlok_lib/src/interpreter.rs:150-182 | applying `-` or `!` twice gives back any operand it accepts, except `nil` |
| SemanticFacts.NotNilIsTrue | rlok_lib/src/interpreter.rs:167-177 | `!nil` is `true`, and `!!nil` is `false` |
| SemanticFacts.NumberResults | rlok_lib/src/interpreter.rs:197-218 | on two numbers `+`, `-`, `*` give the sum, difference and product, `/` the quotient for a non-zero divisor, and `<`, `<=`, `>`, `>=`, `==` the truth of the relation |
| SemanticFacts.ComparisonsAgree | rlok_lib/src/interpreter.rs:210-214 | on numbers `<` mirrors `>`, `<=` is `<` or equal, `>=` is the negation of `<` |
| SemanticFacts.EqualityOnlyOnNumbers | rlok_lib/src/interpreter.rs:184-232 | `nil == nil` and `true == true` are type mismatches, strings fail as concatenations, and `!=` on numbers fails |
| SemanticFacts.DivisionFailsOnZeroOnly | rlok_lib/src/interpreter.rs:197-208 | number division fails exactly on a zero divisor, with `DivideByZero` |
| SemanticFacts.LogicalShortCircuit | rlok_lib/src/interpreter.rs:255-270 | when the left operand decides, the result is that operand and the right operand is never evaluated |
| SemanticFacts.CallChecks | rlok_lib/src/interpreter.rs:503-543 | the callee and all arguments are evaluated before the callable and the argument count are checked |
| SemanticFacts.ClockCallReadsClock | rlok_lib/src/lox_callable.rs:43-48 | calling `clock()` yields the clock reading and changes nothing |
| SemanticFacts.AssignStores | rlok_lib/src/interpreter.rs:478-501 | assignment to a defined name yields the value and updates the nearest binding; to an undefined name it fails with `UndefinedVariable` |
| SemanticFacts.DefineAllKeys | rlok_lib/src/lox_callable.rs:71-76 | defining a list of names adds exactly those names |
| SemanticFacts.DefineAllKeepsOthers | rlok_lib/src/lox_callable.rs:71-76 | names not in the list keep their values |
| SemanticFacts.DefineAllBinds | rlok_lib/src/lox_callable.rs:71-76 | a name's last occurrence in the list decides its value |
| SemanticFacts.BindEvaluatesArguments | rlok_lib/src/lox_callable.rs:71-76 | the parameter loop evaluates the argument expressions in order, exactly like `call_expr`'s argument loop, and defines each parameter to its value |
| SemanticFacts.CallBindsParameters | rlok_lib/src/lox_callable.rs:67-79 | a call of a `fun` re-evaluates the arguments and runs the body in the scope that binds the parameters |
| SemanticFacts.CallScope | rlok_lib/src/lox_callable.rs:68-76 | the scope a body runs in has the globals as parent and binds exactly the parameter names, each to its value |
| SemanticFacts.CallNeverCatchesReturn | rlok_lib/src/lox_callable.rs:67-88 | a completed call of a `fun` yields `nil`, and a `return` inside the body escapes the call as an error |
| SemanticFacts.StoredReturnYieldsValue | rlok_lib/src/lox_callable.rs:81-84 | a function whose declaration is a `return` statement takes no arguments and yields its value |
| SemanticFacts.PrintAppends | rlok_lib/src/interpreter.rs:406-476 | `print` appends exactly the printed value |
| SemanticFacts.VarDefines | rlok_lib/src/interpreter.rs:337-355 | `var` without an initializer fails; with one, it defines the name to the value in the current scope |
| SemanticFacts.DeclaredFunctionIsCallable | rlok_lib/src/interpreter.rs:373-395 | after `fun f(...)`, `f` is bound to a function of that name and arity |
| SemanticFacts.BlockShift | rlok_lib/src/interpreter.rs:357-371 | running the tail of a concatenated block is running the second part |
| SemanticFacts.BlockSequence | rlok_lib/src/interpreter.rs:357-371 | running `a + b` is running `a` and then, if it completed, `b` |
| SemanticFacts.ErrorSkipsRest | rlok_lib/src/interpreter.rs:357-371 | once a statement fails, the rest of the block does not run |
| SemanticFacts.BlockLeavesScope | rlok_lib/src/interpreter.rs:357-371 | a block leaves its new scope in place after it ends |
| SemanticFacts.IfEvaluatesConditionOnce | rlok_lib/src/interpreter.rs:320-335 | the condition is evaluated once; a failing condition is the statement's error; a truthy value runs the then-branch, a falsy one the else-branch, each in the state the condition left; a falsy condition without an else-branch yields no value |
| SemanticFacts.WhileStops | rlok_lib/src/interpreter.rs:307-318 | the condition is tested first: its error is the loop's error, a falsy value ends the loop with no value in the state the condition left; after a truthy test a body that fails or yields a value ends the loop with that outcome (in particular an expression-statement body ends it with the expression's value) |
| SemanticFacts.WhileRound | rlok_lib/src/interpreter.rs:307-318 | after a truthy test and a body that completes without a value the loop restarts from the body's state, re-testing the condition, one unit of fuel per round; with no fuel left it stops with `OutOfFuel` |
| FuelFacts.EvalMoreFuel | rlok_lib/src/interpreter.rs:545-580 | a finished evaluation gives the same result and state with any larger budget |
| FuelFacts.EvalArgsMoreFuel | rlok_lib/src/interpreter.rs:509-513 | the same for the argument loop |
| FuelFacts.InvokeMoreFuel | rlok_lib/src/interpreter.rs:514-542 | the same for invoking a callee |
| FuelFacts.CallMoreFuel | rlok_lib/src/lox_callable.rs:67-88 | the same for a call |
| FuelFacts.BindMoreFuel | rlok_lib/src/lox_callable.rs:71-76 | the same for the parameter loop |
| FuelFacts.ExecMoreFuel | rlok_lib/src/interpreter.rs:406-476 | the same for a statement |
| FuelFacts.ExecBlockMoreFuel | rlok_lib/src/interpreter.rs:357-371 | the same for a block |
| FuelFacts.ExecWhileMoreFuel | rlok_lib/src/interpreter.rs:307-318 | the same for a loop |

## Left out

- Reading a file, the REPL and the run loop (`build`'s logger set-up, `start`, `run`, `run_file`, `run_prompt`, `get_span`): these are input and output around the core.
- `print_lit` writes to standard output. The model instead appends each printed value to `Machine.output` and does not format it.
- The `println!` debugging lines inside `LoxFunction::call`, and all `tracing` spans, are output only and are not modelled.
- `Clock::call` reads the system clock on every call. The model takes one reading, the parameter `Context.now`, fixed for the whole run, so every `clock()` call of a run returns the same number; time passing between calls is not modelled. The error the source raises for a clock set before the epoch is not modelled either.
- Numbers are `f32` in the source and `real` here. Rounding, overflow, infinities and NaN are not modelled.
- The scanner's `start`, `current` and `line` (`scanner.rs:8-10`), a token's `line` (`tokens.rs:57`) and a span's `first` and `last` (`span.rs:6-7`) are `i32` in the source and `int` here. Overflow past 2^31 - 1 (a text of more than 2^31 characters or line feeds) is not modelled. The casts of negative `i32` indices to `usize` in `span.rs` are modelled, as an index that is absent.
- Scanning.Lex: the source measures the text with its byte length (`scanner.rs:55`), reads it with `chars().nth(..).unwrap()` (`scanner.rs:59`, `95`) and cuts lexemes as byte slices (`scanner.rs:65`, `125`), so it is correct only on ASCII text and panics on some texts holding a multi-byte character. The model reads the text as a sequence of characters and scans any such sequence; `Scanning.LexFrom`, `Scanning.Scanner.Build`, `Scanning.Scanner.ScanTokens` and the `ScanFacts` lemmas describe the source only on ASCII text, and the panic on other text is not modelled.
- The `Display` implementations (`fmt` of tokens, expressions and values) are not modelled. The only text modelled is the callables' `to_string`.
- Spans.Parse: models the cursor walks, the underline width and the four outcomes (panic, underflow, out of bounds, excerpt). It does not model the text of the excerpt that the two folds build. When the run before the span is non-empty, the space count starts from the width of a token's `Display` rendering, which is not part of this model; the model then takes the subtraction at `span.rs:101` as not underflowing.
- Semantics.Eval: the `fuel` budget and the `OutOfFuel` error are artefacts that make the model total. `FuelFacts` proves that they never change a finished result.
- The errors `InvalidGrouping`, `ExpressionNotVariable`, `UnexpectedStatement` and `InvalidBinaryExpr` are not modelled. The source raises them only when a sub-function receives the wrong kind of node, which `evaluate_expr` and `evaluate_statement` never pass.
- error_handler.rs, main.rs and lib.rs are not part of this model, apart from the error kinds the core raises.
- Several parts of the source do not compile as written. The model follows their evident meaning:
  - the arity of `Environment::get`;
  - `LitType::Callable`;
  - `TokenType::NewLine`;
  - equality on `TokenType`;
  - the patterns `Statement::Function { name, params, body }` and `Statement::Return { keyword: _, value }` at `lox_callable.rs:70`, `81`, `91` and `105` omit the `span` field that `statement.rs:36` and `42` declare; the model matches on the variants with every field;
  - `RuntimeError::UndefinedVariable` is built with two arguments at `interpreter.rs:246-249` and with one at `environment.rs:34`; the model's `UndefinedVariable` carries the name only;
  - `Environment::assign` is called with three arguments (the third a span) at `interpreter.rs:485` and `495`, while `environment.rs:37` declares two parameters; the model's `Assign` takes the name and the value.
