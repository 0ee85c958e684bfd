/** The expression parser (rlok_lib/src/parser.rs).

    A recursive-descent parser over a token list that ends with `EOF`, with the
    precedence levels comma < equality < comparison < term < factor < unary <
    primary. The first half of the module gives each grammar rule as a function of
    the token list and the cursor; the class `Parser` is the cursor-driven parser of
    the source, and its methods are proved to follow those functions.

    The grammar is modelled as written, which departs from its own comment:
    `unary` parses a primary before looking for `!`/`-`, so a leading operator is
    rejected and `1 - 2` becomes `Unary(-, 2)`; the comparison level lists `<=`
    twice and never `>=`; a binary operator whose right operand is missing at the
    end of input is dropped; the tokens after the expression are left unread. */
module Parsing {
  import opened Wrappers
  import opened Tokens

  /** The parser's own expression tree: literals are the token's literal text. */
  datatype Expr =
    | Binary(left: Expr, operator: Token, right: Expr)
    | Grouping(expression: Expr)
    | Literal(value: Option<string>)
    | Unary(operator: Token, right: Expr)

  datatype ParseError = TokenError(line: int, location: string, message: string)

  /** The outcome of a grammar rule: the expression and the cursor after it, no
      expression (at the end of input) and the cursor, or the error. */
  datatype Outcome =
    | Parsed(expr: Expr, next: nat)
    | Empty(next: nat)
    | Failed(error: ParseError)

  /** The literal texts of `false`, `true` and `nil`, and the two error messages. */
  const FalseText := "false"
  const TrueText := "true"
  const NilText := "nil"
  const ExpectedExpression := "Expected expression."
  const ExpectedParen := "Expected ')' after expression."

  /** What the parser needs of its tokens: a final `EOF`. */
  predicate WellFormed(toks: seq<Token>) {
    0 < |toks| && toks[|toks| - 1].ty.EOF?
  }

  /** The binary levels, loosest first. */
  datatype Level = CommaLevel | EqualityLevel | ComparisonLevel | TermLevel | FactorLevel

  /** The operators each level's loop passes to `match_type`. */
  function Operators(lvl: Level): seq<TokenType> {
    match lvl
    case CommaLevel => [Comma]
    case EqualityLevel => [BangEqual, EqualEqual]
    case ComparisonLevel => [Greater, LessEqual, Less, LessEqual]
    case TermLevel => [Minus, Plus]
    case FactorLevel => [Slash, Star]
  }

  /** The level whose rule parses each operand; below `factor` comes `unary`. */
  function Below(lvl: Level): Level
    requires !lvl.FactorLevel?
  {
    match lvl
    case CommaLevel => EqualityLevel
    case EqualityLevel => ComparisonLevel
    case ComparisonLevel => TermLevel
    case TermLevel => FactorLevel
  }

  /** 5 for the loosest level down to 1 for `factor`. */
  function Rank(lvl: Level): nat {
    match lvl
    case CommaLevel => 5
    case EqualityLevel => 4
    case ComparisonLevel => 3
    case TermLevel => 2
    case FactorLevel => 1
  }

  /** The operators of each level as a predicate: `ty in Operators(lvl)`. */
  predicate Binds(lvl: Level, ty: TokenType) {
    match lvl
    case CommaLevel => ty.Comma?
    case EqualityLevel => ty.BangEqual? || ty.EqualEqual?
    case ComparisonLevel => ty.Greater? || ty.LessEqual? || ty.Less?
    case TermLevel => ty.Minus? || ty.Plus?
    case FactorLevel => ty.Slash? || ty.Star?
  }

  lemma BindsListed(lvl: Level, ty: TokenType)
    ensures ty in Operators(lvl) <==> Binds(lvl, ty)
  {
    match lvl
    case CommaLevel =>
    case EqualityLevel =>
    case ComparisonLevel =>
    case TermLevel =>
    case FactorLevel =>
  }

  /** The operators `unary` looks for after its primary. */
  predicate IsPrefix(ty: TokenType) {
    ty.Bang? || ty.Minus?
  }

  lemma PrefixListed(ty: TokenType)
    ensures ty in [Bang, Minus] <==> IsPrefix(ty)
  {
  }

  /** `match_type(types)` at cursor `c`: `check` fails at `EOF` for every type. */
  predicate MatchAt(toks: seq<Token>, c: nat, types: seq<TokenType>)
    requires c < |toks|
  {
    !toks[c].ty.EOF? && toks[c].ty in types
  }

  /** The end of `primary` when no case applied: nothing at `EOF`, else an error. */
  function Fallthrough(toks: seq<Token>, c: nat): (r: Outcome)
    requires c < |toks|
  {
    if toks[c].ty.EOF? then Empty(c)
    else Failed(TokenError(toks[c].line, toks[c].lexeme, ExpectedExpression))
  }

  /** The literal `primary` makes of a token, if it is one: the texts of `false`,
      `true` and `nil`, and the literal of a number or string token. */
  function LiteralOf(t: Token): Option<Option<string>> {
    if t.ty.FALSE? then Some(Some(FalseText))
    else if t.ty.TRUE? then Some(Some(TrueText))
    else if t.ty.NIL? then Some(Some(NilText))
    else if t.ty.NumberLit? || t.ty.StringLit? then Some(t.literal)
    else None
  }

  /** `primary` at cursor `c`. */
  function Primary(toks: seq<Token>, c: nat): (r: Outcome)
    requires WellFormed(toks) && c < |toks|
    ensures r.Parsed? ==> c < r.next < |toks|
    ensures r.Empty? ==> c <= r.next < |toks| && toks[r.next].ty.EOF?
    decreases |toks| - c, 1
  {
    var t := toks[c];
    if t.ty.LeftParen? then GroupingRule(toks, c + 1)
    else if LiteralOf(t).Some? then Parsed(Literal(LiteralOf(t).value), c + 1)
    else Fallthrough(toks, c)
  }

  /** The `(` case of `primary`, with the cursor `c` just after the `(`: an
      expression, which must be closed by `)`. */
  function GroupingRule(toks: seq<Token>, c: nat): (r: Outcome)
    requires WellFormed(toks) && c < |toks|
    ensures r.Parsed? ==> c < r.next < |toks|
    ensures r.Empty? ==> c <= r.next < |toks| && toks[r.next].ty.EOF?
    decreases |toks| - c + 1, 0
  {
    var inner := Expression(toks, c);
    if inner.Failed? then inner
    else if inner.Empty? then Fallthrough(toks, inner.next)
    else if toks[inner.next].ty.RightParen? then Parsed(Grouping(inner.expr), inner.next + 1)
    else Failed(TokenError(toks[inner.next].line, toks[inner.next].lexeme, ExpectedParen))
  }

  /** `unary` at cursor `c`: a primary, then optionally `!`/`-` and a unary that
      replaces it. */
  function UnaryRule(toks: seq<Token>, c: nat): (r: Outcome)
    requires WellFormed(toks) && c < |toks|
    ensures r.Parsed? ==> c < r.next < |toks|
    ensures r.Empty? ==> c <= r.next < |toks| && toks[r.next].ty.EOF?
    decreases |toks| - c, 2
  {
    var p := Primary(toks, c);
    if !p.Parsed? then p
    else if IsPrefix(toks[p.next].ty) then
      var right := UnaryRule(toks, p.next + 1);
      if right.Failed? then right
      else if right.Parsed? then Parsed(Unary(toks[p.next], right.expr), right.next)
      else Parsed(p.expr, right.next)
    else p
  }

  /** `unary` when an operator follows the primary. */
  lemma UnaryRuleOperator(toks: seq<Token>, c: nat)
    requires WellFormed(toks) && c < |toks|
    requires Primary(toks, c).Parsed? && IsPrefix(toks[Primary(toks, c).next].ty)
    ensures var p := Primary(toks, c);
      var u := UnaryRule(toks, p.next + 1);
      UnaryRule(toks, c) ==
        if u.Failed? then u
        else if u.Parsed? then Parsed(Unary(toks[p.next], u.expr), u.next)
        else Parsed(p.expr, u.next)
  {
  }

  /** `unary` when no operator follows the primary: the primary itself. */
  lemma UnaryRuleNoOperator(toks: seq<Token>, c: nat)
    requires WellFormed(toks) && c < |toks|
    requires var p := Primary(toks, c); !p.Parsed? || !IsPrefix(toks[p.next].ty)
    ensures UnaryRule(toks, c) == Primary(toks, c)
  {
  }

  /** The operand of a binary level at cursor `c`: the next level, or `unary`
      below `factor`. */
  function Operand(toks: seq<Token>, lvl: Level, c: nat): (r: Outcome)
    requires WellFormed(toks) && c < |toks|
    ensures r.Parsed? ==> c < r.next < |toks|
    ensures r.Empty? ==> c <= r.next < |toks| && toks[r.next].ty.EOF?
    decreases |toks| - c, 2 * Rank(lvl) + 1
  {
    if lvl.FactorLevel? then UnaryRule(toks, c) else LevelRule(toks, Below(lvl), c)
  }

  /** A binary level at cursor `c`: an operand, then the loop. */
  function LevelRule(toks: seq<Token>, lvl: Level, c: nat): (r: Outcome)
    requires WellFormed(toks) && c < |toks|
    ensures r.Parsed? ==> c < r.next < |toks|
    ensures r.Empty? ==> c <= r.next < |toks| && toks[r.next].ty.EOF?
    decreases |toks| - c, 2 * Rank(lvl) + 2
  {
    var first := Operand(toks, lvl, c);
    if !first.Parsed? then first
    else LevelLoop(toks, lvl, first.next, first.expr)
  }

  /** The `while match_type(..)` loop of a binary level, with `acc` the expression
      so far and the cursor at `c`. */
  function LevelLoop(toks: seq<Token>, lvl: Level, c: nat, acc: Expr): (r: Outcome)
    requires WellFormed(toks) && c < |toks|
    ensures !r.Empty? && (r.Parsed? ==> c <= r.next < |toks|)
    decreases |toks| - c, 0
  {
    if Binds(lvl, toks[c].ty) then
      var right := Operand(toks, lvl, c + 1);
      if right.Failed? then right
      else LevelLoop(toks, lvl, right.next, if right.Parsed? then Binary(acc, toks[c], right.expr) else acc)
    else Parsed(acc, c)
  }

  /** `expression` at cursor `c`. */
  function Expression(toks: seq<Token>, c: nat): (r: Outcome)
    requires WellFormed(toks) && c < |toks|
    ensures r.Parsed? ==> c < r.next < |toks|
    ensures r.Empty? ==> c <= r.next < |toks| && toks[r.next].ty.EOF?
    decreases |toks| - c, 13
  {
    LevelRule(toks, CommaLevel, c)
  }

  /** A method's result and final cursor agree with a rule's outcome. */
  predicate Follows(o: Outcome, r: Result<Option<Expr>, ParseError>, cur: int) {
    match o
    case Parsed(e, next) => r == Ok(Some(e)) && cur == next
    case Empty(next) => r == Ok(None) && cur == next
    case Failed(error) => r == Err(error)
  }

  class Parser {
    const tokens: seq<Token>
    var current: int

    ghost predicate Valid()
      reads this
    {
      WellFormed(tokens) && 0 <= current < |tokens|
    }

    /** `Parser::new`: the cursor at the first token. */
    constructor New(tokens: seq<Token>)
      requires WellFormed(tokens)
      ensures Valid() && this.tokens == tokens && current == 0
    {
      this.tokens := tokens;
      current := 0;
    }

    /** `peek`: the token under the cursor. */
    function Peek(): (t: Token)
      reads this
      requires Valid()
      ensures t == tokens[current]
    {
      tokens[current]
    }

    /** `previous`: the token before the cursor. */
    function Previous(): (t: Token)
      reads this
      requires Valid() && 0 < current
      ensures t == tokens[current - 1]
    {
      tokens[current - 1]
    }

    /** `is_end`: the cursor is on an `EOF` token. */
    function IsEnd(): (b: bool)
      reads this
      requires Valid()
      ensures b <==> tokens[current].ty.EOF?
    {
      Peek().ty.EOF?
    }

    /** `advance`: step past the current token unless it is `EOF`, and return the
        token before the cursor (which must exist). */
    method Advance() returns (t: Token)
      requires Valid() && (0 < current || !IsEnd())
      modifies this`current
      ensures Valid()
      ensures current == if old(IsEnd()) then old(current) else old(current) + 1
      ensures t == tokens[current - 1]
    {
      if !IsEnd() {
        current := current + 1;
      }
      t := Previous();
    }

    /** `check`: the current token has type `ty`; never at `EOF`. */
    function Check(ty: TokenType): (b: bool)
      reads this
      requires Valid()
      ensures b <==> !tokens[current].ty.EOF? && tokens[current].ty == ty
    {
      if IsEnd() then false else Peek().ty == ty
    }

    /** `match_type`: consume the current token when one of `types` checks. */
    method MatchType(types: seq<TokenType>) returns (b: bool)
      requires Valid()
      modifies this`current
      ensures Valid()
      ensures b <==> MatchAt(tokens, old(current), types)
      ensures current == if b then old(current) + 1 else old(current)
    {
      for i := 0 to |types|
        invariant current == old(current)
        invariant forall k :: 0 <= k < i ==> !Check(types[k])
      {
        if Check(types[i]) {
          var _ := Advance();
          return true;
        }
      }
      return false;
    }

    /** `consume`: step past a token of type `ty`, else fail at the current token
        without moving. */
    method Consume(ty: TokenType, message: string) returns (r: Result<(), ParseError>)
      requires Valid()
      modifies this`current
      ensures Valid()
      ensures r.Ok? <==> old(Check(ty))
      ensures r.Ok? ==> current == old(current) + 1
      ensures r.Err? ==>
        current == old(current) && r.error == TokenError(tokens[current].line, tokens[current].lexeme, message)
    {
      if Check(ty) {
        var _ := Advance();
        return Ok(());
      }
      var token := Peek();
      return Err(TokenError(token.line, token.lexeme, message));
    }

    /** `parse`: the expression at the cursor. */
    method Parse() returns (r: Result<Option<Expr>, ParseError>)
      requires Valid()
      modifies this`current
      ensures Valid() && Follows(Expression(tokens, old(current)), r, current)
      decreases |tokens| - current, 15
    {
      var o := ExpressionMethod();
      r := match o
        case Parsed(e, _) => Ok(Some(e))
        case Empty(_) => Ok(None)
        case Failed(error) => Err(error);
    }

    /** `expression`: the comma level. */
    method ExpressionMethod() returns (r: Outcome)
      requires Valid()
      modifies this`current
      ensures Valid() && r == Expression(tokens, old(current)) && (!r.Failed? ==> current == r.next)
      decreases |tokens| - current, 14
    {
      r := Binary(CommaLevel);
    }

    /** `comma`, `equality`, `comparison`, `term` and `factor`, which differ only in
        their operators and in the rule that parses their operands. */
    method Binary(lvl: Level) returns (r: Outcome)
      requires Valid()
      modifies this`current
      ensures Valid() && r == LevelRule(tokens, lvl, old(current)) && (!r.Failed? ==> current == r.next)
      decreases |tokens| - current, 2 * Rank(lvl) + 3
    {
      var first := OperandMethod(lvl);
      if !first.Parsed? {
        r := first;
      } else {
        r := LoopMethod(lvl, first.expr);
      }
    }

    /** The `while match_type(..)` loop of a binary level, from the expression `acc`. */
    method LoopMethod(lvl: Level, acc: Expr) returns (r: Outcome)
      requires Valid()
      modifies this`current
      ensures Valid() && r == LevelLoop(tokens, lvl, old(current), acc) && (!r.Failed? ==> current == r.next)
      decreases |tokens| - current, 2 * Rank(lvl) + 1
    {
      var expr := acc;
      while true
        invariant Valid() && old(current) <= current
        invariant LevelLoop(tokens, lvl, old(current), acc) == LevelLoop(tokens, lvl, current, expr)
        decreases |tokens| - current
      {
        ghost var at := current;
        var matched := MatchType(Operators(lvl));
        BindsListed(lvl, tokens[at].ty);
        if !matched {
          return Parsed(expr, current);
        }
        var operator := Previous();
        var right := OperandMethod(lvl);
        if right.Failed? {
          return right;
        }
        if right.Parsed? {
          expr := Expr.Binary(expr, operator, right.expr);
        }
      }
    }

    /** The operand call of a binary level: `unary` below `factor`, else the next
        level's method. */
    method OperandMethod(lvl: Level) returns (r: Outcome)
      requires Valid()
      modifies this`current
      ensures Valid() && r == Operand(tokens, lvl, old(current)) && (!r.Failed? ==> current == r.next)
      decreases |tokens| - current, 2 * Rank(lvl) + 2
    {
      if lvl.FactorLevel? {
        r := UnaryMethod();
      } else {
        r := Binary(Below(lvl));
      }
    }

    /** `unary`. */
    method UnaryMethod() returns (r: Outcome)
      requires Valid()
      modifies this`current
      ensures Valid() && r == UnaryRule(tokens, old(current)) && (!r.Failed? ==> current == r.next)
      decreases |tokens| - current, 3
    {
      var p := PrimaryMethod();
      r := UnaryTail(p, old(current));
    }

    /** The part of `unary` after its primary `p`, parsed from `start`. */
    method UnaryTail(p: Outcome, ghost start: nat) returns (r: Outcome)
      requires Valid() && start < |tokens| && p == Primary(tokens, start)
      requires !p.Failed? ==> current == p.next
      modifies this`current
      ensures Valid() && r == UnaryRule(tokens, start) && (!r.Failed? ==> current == r.next)
      decreases |tokens| - start, 2
    {
      r := p;
      if !p.Parsed? {
        return;
      }
      ghost var at := current;
      var matched := MatchType([Bang, Minus]);
      PrefixListed(tokens[at].ty);
      if matched {
        var operator := Previous();
        UnaryRuleOperator(tokens, start);
        var right := UnaryMethod();
        if right.Failed? {
          r := right;
        } else if right.Parsed? {
          r := Parsed(Unary(operator, right.expr), current);
        } else {
          r := Parsed(p.expr, current);
        }
      }
    }

    /** `primary`. */
    method PrimaryMethod() returns (r: Outcome)
      requires Valid()
      modifies this`current
      ensures Valid() && r == Primary(tokens, old(current)) && (!r.Failed? ==> current == r.next)
      decreases |tokens| - current, 1
    {
      var matched := MatchType([FALSE]);
      if matched {
        return Parsed(Literal(Some(FalseText)), current);
      }
      matched := MatchType([TRUE]);
      if matched {
        return Parsed(Literal(Some(TrueText)), current);
      }
      matched := MatchType([NIL]);
      if matched {
        return Parsed(Literal(Some(NilText)), current);
      }
      matched := MatchType([NumberLit, StringLit]);
      if matched {
        return Parsed(Literal(Previous().literal), current);
      }
      matched := MatchType([LeftParen]);
      if matched {
        r := GroupingMethod();
        return;
      }
      r := FallthroughMethod();
    }

    /** The `(` case of `primary`, after the `(`. */
    method GroupingMethod() returns (r: Outcome)
      requires Valid()
      modifies this`current
      ensures Valid() && r == GroupingRule(tokens, old(current)) && (!r.Failed? ==> current == r.next)
      decreases |tokens| - current + 1, 0
    {
      var inner := ExpressionMethod();
      if inner.Failed? {
        r := inner;
      } else if inner.Parsed? {
        var closed := Consume(RightParen, ExpectedParen);
        if closed.Err? {
          r := Failed(closed.error);
        } else {
          r := Parsed(Grouping(inner.expr), current);
        }
      } else {
        r := FallthroughMethod();
      }
    }

    /** The end of `primary`: nothing at `EOF`, else "Expected expression.". */
    method FallthroughMethod() returns (r: Outcome)
      requires Valid()
      ensures r == Fallthrough(tokens, current) && (!r.Failed? ==> current == r.next)
    {
      var token := Peek();
      if token.ty.EOF? {
        return Empty(current);
      }
      return Failed(TokenError(token.line, token.lexeme, ExpectedExpression));
    }
  }
}
