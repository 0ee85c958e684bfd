/** What the expression parser (rlok_lib/src/parser.rs) promises about the trees it
    builds, stated over the rule functions of module `Parsing`. */
module ParseFacts {
  import opened Wrappers
  import opened Tokens
  import opened Parsing

  /** The precedence rank of a binary operator: the rank of the level whose loop
      matches it, and 0 for a token no level matches (`>=` among them). */
  function OpRank(ty: TokenType): nat {
    if ty.Comma? then 5
    else if ty.BangEqual? || ty.EqualEqual? then 4
    else if ty.Greater? || ty.LessEqual? || ty.Less? then 3
    else if ty.Minus? || ty.Plus? then 2
    else if ty.Slash? || ty.Star? then 1
    else 0
  }

  /** The rank of the operator at the root of `e`; 0 when the root is not binary. */
  function TopRank(e: Expr): nat {
    if e.Binary? then OpRank(e.operator.ty) else 0
  }

  /** The shape of every tree the parser builds: binary nodes are left-associative
      (the left operand binds no looser, the right operand strictly tighter), carry
      an operator of some level other than `-`, and a unary operand is never
      binary. */
  predicate WellShaped(e: Expr) {
    match e
    case Binary(l, op, r) =>
      0 < OpRank(op.ty) && !op.ty.Minus? &&
      TopRank(l) <= OpRank(op.ty) && TopRank(r) < OpRank(op.ty) &&
      WellShaped(l) && WellShaped(r)
    case Grouping(inner) => WellShaped(inner)
    case Literal(_) => true
    case Unary(op, r) => (op.ty.Bang? || op.ty.Minus?) && !r.Binary? && WellShaped(r)
  }

  /** `e` holds a binary node whose operator has type `ty`. */
  predicate HasBinary(e: Expr, ty: TokenType) {
    match e
    case Binary(l, op, r) => op.ty == ty || HasBinary(l, ty) || HasBinary(r, ty)
    case Grouping(inner) => HasBinary(inner, ty)
    case Literal(_) => false
    case Unary(_, r) => HasBinary(r, ty)
  }

  /** A well-shaped tree has no binary `-` and no `>=`. */
  lemma {:induction false} NoSubtractionNoGreaterEqual(e: Expr)
    requires WellShaped(e)
    ensures !HasBinary(e, Minus) && !HasBinary(e, GreaterEqual)
  {
    match e
    case Binary(l, _, r) =>
      NoSubtractionNoGreaterEqual(l);
      NoSubtractionNoGreaterEqual(r);
    case Grouping(inner) =>
      NoSubtractionNoGreaterEqual(inner);
    case Literal(_) =>
    case Unary(_, r) =>
      NoSubtractionNoGreaterEqual(r);
  }

  /** A parsed expression is well shaped and its root binds at least as tightly as
      `rank`. */
  predicate ShapedWithin(r: Outcome, rank: nat) {
    r.Parsed? ==> WellShaped(r.expr) && TopRank(r.expr) <= rank
  }

  /** Where `unary` and every level above it stop: never on `!` or `-` (at a `!` or
      `-` after its primary, `unary` goes on). */
  lemma {:induction false} UnaryStops(toks: seq<Token>, c: nat)
    requires WellFormed(toks) && c < |toks|
    ensures var r := UnaryRule(toks, c); !r.Failed? ==> !toks[r.next].ty.Bang? && !toks[r.next].ty.Minus?
    decreases |toks| - c
  {
    var p := Primary(toks, c);
    if p.Parsed? && IsPrefix(toks[p.next].ty) {
      UnaryStops(toks, p.next + 1);
      UnaryRuleOperator(toks, c);
    } else {
      UnaryRuleNoOperator(toks, c);
    }
  }

  lemma {:induction false} OperandStops(toks: seq<Token>, lvl: Level, c: nat)
    requires WellFormed(toks) && c < |toks|
    ensures var r := Operand(toks, lvl, c); !r.Failed? ==> !toks[r.next].ty.Bang? && !toks[r.next].ty.Minus?
    decreases |toks| - c, 2 * Rank(lvl) + 1
  {
    if lvl.FactorLevel? {
      UnaryStops(toks, c);
    } else {
      LevelStops(toks, Below(lvl), c);
    }
  }

  lemma {:induction false} LevelStops(toks: seq<Token>, lvl: Level, c: nat)
    requires WellFormed(toks) && c < |toks|
    ensures var r := LevelRule(toks, lvl, c); !r.Failed? ==> !toks[r.next].ty.Bang? && !toks[r.next].ty.Minus?
    decreases |toks| - c, 2 * Rank(lvl) + 2
  {
    var first := Operand(toks, lvl, c);
    OperandStops(toks, lvl, c);
    if first.Parsed? {
      LoopStops(toks, lvl, first.next, first.expr);
    }
  }

  lemma {:induction false} LoopStops(toks: seq<Token>, lvl: Level, c: nat, acc: Expr)
    requires WellFormed(toks) && c < |toks| && !toks[c].ty.Bang? && !toks[c].ty.Minus?
    ensures var r := LevelLoop(toks, lvl, c, acc); !r.Failed? ==> !toks[r.next].ty.Bang? && !toks[r.next].ty.Minus?
    decreases |toks| - c, 0
  {
    if Binds(lvl, toks[c].ty) {
      var right := Operand(toks, lvl, c + 1);
      OperandStops(toks, lvl, c + 1);
      if !right.Failed? {
        LoopStops(toks, lvl, right.next, if right.Parsed? then Binary(acc, toks[c], right.expr) else acc);
      }
    }
  }

  lemma {:induction false} PrimaryShape(toks: seq<Token>, c: nat)
    requires WellFormed(toks) && c < |toks|
    ensures ShapedWithin(Primary(toks, c), 0)
    decreases |toks| - c, 1
  {
    if toks[c].ty.LeftParen? {
      GroupingShape(toks, c + 1);
    }
  }

  lemma {:induction false} GroupingShape(toks: seq<Token>, c: nat)
    requires WellFormed(toks) && c < |toks|
    ensures ShapedWithin(GroupingRule(toks, c), 0)
    decreases |toks| - c + 1, 0
  {
    ExpressionShape(toks, c);
  }

  lemma {:induction false} UnaryShape(toks: seq<Token>, c: nat)
    requires WellFormed(toks) && c < |toks|
    ensures ShapedWithin(UnaryRule(toks, c), 0)
    decreases |toks| - c, 2
  {
    var p := Primary(toks, c);
    PrimaryShape(toks, c);
    if p.Parsed? && IsPrefix(toks[p.next].ty) {
      UnaryShape(toks, p.next + 1);
      UnaryOperatorShape(toks, c);
    } else {
      UnaryRuleNoOperator(toks, c);
    }
  }

  /** The step of `UnaryShape` where an operator follows the primary. */
  lemma UnaryOperatorShape(toks: seq<Token>, c: nat)
    requires WellFormed(toks) && c < |toks|
    requires var p := Primary(toks, c);
      p.Parsed? && IsPrefix(toks[p.next].ty) &&
      ShapedWithin(p, 0) && ShapedWithin(UnaryRule(toks, p.next + 1), 0)
    ensures ShapedWithin(UnaryRule(toks, c), 0)
  {
    var p := Primary(toks, c);
    var u := UnaryRule(toks, p.next + 1);
    UnaryRuleOperator(toks, c);
    if u.Parsed? {
      UnaryNodeShaped(toks[p.next], u.expr);
    }
  }

  lemma {:induction false} OperandShape(toks: seq<Token>, lvl: Level, c: nat)
    requires WellFormed(toks) && c < |toks|
    ensures ShapedWithin(Operand(toks, lvl, c), Rank(lvl) - 1)
    decreases |toks| - c, 2 * Rank(lvl) + 1
  {
    if lvl.FactorLevel? {
      UnaryShape(toks, c);
    } else {
      LevelShape(toks, Below(lvl), c);
    }
  }

  lemma {:induction false} LevelShape(toks: seq<Token>, lvl: Level, c: nat)
    requires WellFormed(toks) && c < |toks|
    ensures ShapedWithin(LevelRule(toks, lvl, c), Rank(lvl))
    decreases |toks| - c, 2 * Rank(lvl) + 2
  {
    var first := Operand(toks, lvl, c);
    OperandShape(toks, lvl, c);
    OperandStops(toks, lvl, c);
    if first.Parsed? {
      LoopShape(toks, lvl, first.next, first.expr);
    }
  }

  /** A prefix operator over a non-binary well-shaped operand. */
  lemma UnaryNodeShaped(op: Token, e: Expr)
    requires (op.ty.Bang? || op.ty.Minus?) && WellShaped(e) && TopRank(e) == 0
    ensures WellShaped(Unary(op, e)) && TopRank(Unary(op, e)) == 0
  {
  }

  /** A node built by the loop of `lvl` from an operand that binds no looser and
      one that binds strictly tighter. */
  lemma BinaryNodeShaped(lvl: Level, l: Expr, op: Token, r: Expr)
    requires Binds(lvl, op.ty) && !op.ty.Minus?
    requires WellShaped(l) && TopRank(l) <= Rank(lvl) && WellShaped(r) && TopRank(r) < Rank(lvl)
    ensures WellShaped(Binary(l, op, r)) && TopRank(Binary(l, op, r)) == Rank(lvl)
  {
    OperatorRank(lvl, op.ty);
  }

  /** The operators of a level, `-` aside, have that level's rank. */
  lemma OperatorRank(lvl: Level, ty: TokenType)
    requires Binds(lvl, ty) && !ty.Minus?
    ensures OpRank(ty) == Rank(lvl)
  {
    match lvl
    case CommaLevel =>
    case EqualityLevel =>
    case ComparisonLevel =>
    case TermLevel =>
    case FactorLevel =>
  }

  lemma {:induction false} LoopShape(toks: seq<Token>, lvl: Level, c: nat, acc: Expr)
    requires WellFormed(toks) && c < |toks|
    requires WellShaped(acc) && TopRank(acc) <= Rank(lvl) && !toks[c].ty.Bang? && !toks[c].ty.Minus?
    ensures ShapedWithin(LevelLoop(toks, lvl, c, acc), Rank(lvl))
    decreases |toks| - c, 0
  {
    if Binds(lvl, toks[c].ty) {
      var right := Operand(toks, lvl, c + 1);
      OperandShape(toks, lvl, c + 1);
      OperandStops(toks, lvl, c + 1);
      if !right.Failed? {
        if right.Parsed? {
          BinaryNodeShaped(lvl, acc, toks[c], right.expr);
          LoopShape(toks, lvl, right.next, Binary(acc, toks[c], right.expr));
        } else {
          LoopShape(toks, lvl, right.next, acc);
        }
      }
    }
  }

  lemma {:induction false} ExpressionShape(toks: seq<Token>, c: nat)
    requires WellFormed(toks) && c < |toks|
    ensures ShapedWithin(Expression(toks, c), 5)
    decreases |toks| - c, 13
  {
    LevelShape(toks, CommaLevel, c);
  }

  /** Every tree `parse` returns is well shaped: left-associative by precedence, with
      no binary `-` (a `-` after an operand is taken by `unary` as a prefix of the
      next operand) and no `>=` (no level matches it). */
  lemma ParsedTreeShape(toks: seq<Token>, c: nat)
    requires WellFormed(toks) && c < |toks|
    ensures var r := Expression(toks, c);
      r.Parsed? ==>
        WellShaped(r.expr) && !HasBinary(r.expr, Minus) && !HasBinary(r.expr, GreaterEqual)
  {
    var r := Expression(toks, c);
    ExpressionShape(toks, c);
    if r.Parsed? {
      NoSubtractionNoGreaterEqual(r.expr);
    }
  }

  /** No binary level matches `ty` (`>=` and `EOF` among such tokens). */
  predicate NoLevelBinds(ty: TokenType) {
    !Binds(CommaLevel, ty) && !Binds(EqualityLevel, ty) && !Binds(ComparisonLevel, ty) &&
    !Binds(TermLevel, ty) && !Binds(FactorLevel, ty)
  }

  /** When `unary` fails, finds nothing, or stops before a token no level matches,
      every binary level returns what `unary` returned. */
  lemma {:induction false} LevelIsUnary(toks: seq<Token>, lvl: Level, c: nat)
    requires WellFormed(toks) && c < |toks|
    requires var u := UnaryRule(toks, c); u.Parsed? ==> NoLevelBinds(toks[u.next].ty)
    ensures LevelRule(toks, lvl, c) == UnaryRule(toks, c)
    decreases Rank(lvl)
  {
    if !lvl.FactorLevel? {
      LevelIsUnary(toks, Below(lvl), c);
    }
  }

  /** ... and so does `expression`. */
  lemma ExpressionIsUnary(toks: seq<Token>, c: nat)
    requires WellFormed(toks) && c < |toks|
    requires var u := UnaryRule(toks, c); u.Parsed? ==> NoLevelBinds(toks[u.next].ty)
    ensures Expression(toks, c) == UnaryRule(toks, c)
  {
    LevelIsUnary(toks, CommaLevel, c);
  }

  /** Tokens of the examples below, all on line 1. */
  function Num(text: string): Token { Token(NumberLit, text, Some(text), 1) }
  function Op(ty: TokenType, text: string): Token { Token(ty, text, None, 1) }
  const End := Token(EOF, "", None, 1)

  /** `1 - 2` parses as `Unary(-, 2)`: the `-` is read by `unary` after the primary
      `1`, which it then discards. */
  lemma SubtractionBecomesUnary()
    ensures Expression([Num("1"), Op(Minus, "-"), Num("2"), End], 0)
      == Parsed(Unary(Op(Minus, "-"), Literal(Some("2"))), 3)
  {
    var toks := [Num("1"), Op(Minus, "-"), Num("2"), End];
    UnaryRuleNoOperator(toks, 2);
    UnaryRuleOperator(toks, 0);
    ExpressionIsUnary(toks, 0);
  }

  /** `1 >= 2` parses as the literal `1` alone: no level matches `>=`, and the
      tokens after the expression are left unread. */
  lemma GreaterEqualEndsExpression()
    ensures Expression([Num("1"), Op(GreaterEqual, ">="), Num("2"), End], 0)
      == Parsed(Literal(Some("1")), 1)
  {
    var toks := [Num("1"), Op(GreaterEqual, ">="), Num("2"), End];
    UnaryRuleNoOperator(toks, 0);
    ExpressionIsUnary(toks, 0);
  }

  /** A leading `-` is an error: `primary` comes first and does not accept it. */
  lemma LeadingMinusRejected()
    ensures Expression([Op(Minus, "-"), Num("1"), End], 0)
      == Failed(TokenError(1, "-", ExpectedExpression))
  {
    var toks := [Op(Minus, "-"), Num("1"), End];
    UnaryRuleNoOperator(toks, 0);
    ExpressionIsUnary(toks, 0);
  }

  /** An unclosed `(` fails at the `EOF` token. */
  lemma UnclosedParenRejected()
    ensures Expression([Op(LeftParen, "("), Num("1"), End], 0)
      == Failed(TokenError(1, "", ExpectedParen))
  {
    var toks := [Op(LeftParen, "("), Num("1"), End];
    UnaryRuleNoOperator(toks, 1);
    ExpressionIsUnary(toks, 1);
    UnaryRuleNoOperator(toks, 0);
    ExpressionIsUnary(toks, 0);
  }

  /** A level returns what the level below it returned when that stops before a
      token no level matches. */
  lemma LevelPasses(toks: seq<Token>, lvl: Level, c: nat)
    requires WellFormed(toks) && c < |toks| && !lvl.FactorLevel?
    requires var r := LevelRule(toks, Below(lvl), c); r.Parsed? ==> NoLevelBinds(toks[r.next].ty)
    ensures LevelRule(toks, lvl, c) == LevelRule(toks, Below(lvl), c)
  {
  }

  /** `1 + 2 + 3` groups to the left: `(1 + 2) + 3`. */
  lemma SumGroupsLeft()
    ensures Expression([Num("1"), Op(Plus, "+"), Num("2"), Op(Plus, "+"), Num("3"), End], 0)
      == Parsed(Binary(Binary(Literal(Some("1")), Op(Plus, "+"), Literal(Some("2"))),
                       Op(Plus, "+"), Literal(Some("3"))), 5)
  {
    var toks := [Num("1"), Op(Plus, "+"), Num("2"), Op(Plus, "+"), Num("3"), End];
    var one, two, three := Literal(Some("1")), Literal(Some("2")), Literal(Some("3"));
    UnaryRuleNoOperator(toks, 0);
    UnaryRuleNoOperator(toks, 2);
    UnaryRuleNoOperator(toks, 4);
    assert LevelRule(toks, FactorLevel, 0) == Parsed(one, 1);
    assert LevelRule(toks, FactorLevel, 2) == Parsed(two, 3);
    assert LevelRule(toks, FactorLevel, 4) == Parsed(three, 5);
    assert LevelLoop(toks, TermLevel, 5, Binary(Binary(one, toks[1], two), toks[3], three))
      == Parsed(Binary(Binary(one, toks[1], two), toks[3], three), 5);
    assert LevelLoop(toks, TermLevel, 3, Binary(one, toks[1], two))
      == Parsed(Binary(Binary(one, toks[1], two), toks[3], three), 5);
    assert Operand(toks, TermLevel, 2) == Parsed(two, 3);
    assert LevelLoop(toks, TermLevel, 1, one) == LevelLoop(toks, TermLevel, 3, Binary(one, toks[1], two));
    assert LevelRule(toks, TermLevel, 0) == Parsed(Binary(Binary(one, toks[1], two), toks[3], three), 5);
    LevelPasses(toks, ComparisonLevel, 0);
    LevelPasses(toks, EqualityLevel, 0);
    LevelPasses(toks, CommaLevel, 0);
  }

  /** `1 +` at the end of input parses as `1`: the missing right operand drops the
      operator. */
  lemma MissingOperandDropped()
    ensures Expression([Num("1"), Op(Plus, "+"), End], 0) == Parsed(Literal(Some("1")), 2)
  {
    var toks := [Num("1"), Op(Plus, "+"), End];
    var one := Literal(Some("1"));
    UnaryRuleNoOperator(toks, 0);
    UnaryRuleNoOperator(toks, 2);
    assert LevelRule(toks, FactorLevel, 0) == Parsed(one, 1);
    assert LevelRule(toks, FactorLevel, 2) == Empty(2);
    assert LevelLoop(toks, TermLevel, 1, one) == Parsed(one, 2);
    assert LevelRule(toks, TermLevel, 0) == Parsed(one, 2);
    LevelPasses(toks, ComparisonLevel, 0);
    LevelPasses(toks, EqualityLevel, 0);
    LevelPasses(toks, CommaLevel, 0);
  }
}
