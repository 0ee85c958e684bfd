/** The scanner (rlok_lib/src/scanner.rs).

    The source text is a sequence of ASCII characters: the code measures it with
    the byte length and reads it with `chars().nth`, which agree only on ASCII.

    The first half of the module specifies one scanning step and the whole scan as
    functions over the text; the class `Scanner` is the cursor-driven lexer of the
    source, and its methods are proved to follow those functions. */
module Scanning {
  import opened Wrappers
  import opened Tokens

  datatype ScanError =
    | StringError(line: int, message: string)
    | UnexpectedTokenError(line: int, message: string)

  /** The keyword table built by `Scanner::build`. */
  function Keywords(): map<string, TokenType> {
    map[
      "and" := AND, "class" := CLASS, "else" := ELSE, "false" := FALSE,
      "for" := FOR, "fun" := FUN, "if" := IF, "nil" := NIL,
      "or" := OR, "print" := PRINT, "return" := RETURN, "super" := SUPER,
      "this" := THIS, "true" := TRUE, "var" := VAR, "while" := WHILE]
  }

  predicate IsDigit(c: char) {
    '0' <= c <= '9'
  }

  predicate IsAlpha(c: char) {
    ('a' <= c <= 'z') || ('A' <= c <= 'Z') || c == '_'
  }

  predicate IsAlphaNumeric(c: char) {
    IsAlpha(c) || IsDigit(c)
  }

  /** The character `peek` sees at index `i`: NUL past the end of the text. */
  function CharAt(src: seq<char>, i: int): char {
    if 0 <= i < |src| then src[i] else '\0'
  }

  /** Number of line feeds in `src[a..b]`. */
  function Newlines(src: seq<char>, a: nat, b: nat): nat
    requires a <= b <= |src|
    decreases b - a
  {
    if a == b then 0 else Newlines(src, a, b - 1) + (if src[b - 1] == '\n' then 1 else 0)
  }

  /** Counting a text in two pieces. */
  lemma {:induction false} NewlinesSplit(src: seq<char>, a: nat, b: nat, c: nat)
    requires a <= b <= c <= |src|
    ensures Newlines(src, a, c) == Newlines(src, a, b) + Newlines(src, b, c)
    decreases c - b
  {
    if b < c {
      NewlinesSplit(src, a, b, c - 1);
    }
  }

  /** A piece with no line feed counts none. */
  lemma {:induction false} NoNewlines(src: seq<char>, a: nat, b: nat)
    requires a <= b <= |src|
    requires forall k :: a <= k < b ==> src[k] != '\n'
    ensures Newlines(src, a, b) == 0
    decreases b - a
  {
    if a < b {
      NoNewlines(src, a, b - 1);
    }
  }

  /** Where a run that starts at `i` and stops before the character `stop` ends:
      at the next `stop`, or at the end of the text. A string body stops before
      `"`, a `//` comment before a line feed. */
  function RunEnd(src: seq<char>, i: nat, stop: char): (j: nat)
    requires i <= |src|
    ensures i <= j <= |src|
    ensures j < |src| ==> src[j] == stop
    ensures forall k :: i <= k < j ==> src[k] != stop
    decreases |src| - i
  {
    if i == |src| || src[i] == stop then i else RunEnd(src, i + 1, stop)
  }

  /** The end of the maximal run of digits starting at `i`. */
  function DigitsEnd(src: seq<char>, i: nat): (j: nat)
    requires i <= |src|
    ensures i <= j <= |src|
    ensures !IsDigit(CharAt(src, j))
    ensures forall k :: i <= k < j ==> IsDigit(src[k])
    decreases |src| - i
  {
    if i == |src| || !IsDigit(src[i]) then i else DigitsEnd(src, i + 1)
  }

  /** The end of a number whose first digit is just before `i`: more digits, then
      a `.` and digits only when a digit follows the `.`. */
  function NumberEnd(src: seq<char>, i: nat): (j: nat)
    requires i <= |src|
    ensures i <= j <= |src|
  {
    var d := DigitsEnd(src, i);
    if CharAt(src, d) == '.' && IsDigit(CharAt(src, d + 1)) then DigitsEnd(src, d + 1) else d
  }

  /** The end of the maximal run of letters, digits and `_` starting at `i`. */
  function IdentEnd(src: seq<char>, i: nat): (j: nat)
    requires i <= |src|
    ensures i <= j <= |src|
    ensures !IsAlphaNumeric(CharAt(src, j))
    ensures forall k :: i <= k < j ==> IsAlphaNumeric(src[k])
    decreases |src| - i
  {
    if i == |src| || !IsAlphaNumeric(src[i]) then i else IdentEnd(src, i + 1)
  }

  /** The scanning loops below stop exactly at these ends. */
  lemma {:induction false} RunEndAt(src: seq<char>, i: nat, j: nat, stop: char)
    requires i <= j <= |src| && (j < |src| ==> src[j] == stop)
    requires forall k :: i <= k < j ==> src[k] != stop
    ensures RunEnd(src, i, stop) == j
    decreases j - i
  {
    if i < j { RunEndAt(src, i + 1, j, stop); }
  }

  lemma {:induction false} DigitsEndAt(src: seq<char>, i: nat, j: nat)
    requires i <= j <= |src| && !IsDigit(CharAt(src, j))
    requires forall k :: i <= k < j ==> IsDigit(src[k])
    ensures DigitsEnd(src, i) == j
    decreases j - i
  {
    if i < j { DigitsEndAt(src, i + 1, j); }
  }

  lemma {:induction false} IdentEndAt(src: seq<char>, i: nat, j: nat)
    requires i <= j <= |src| && !IsAlphaNumeric(CharAt(src, j))
    requires forall k :: i <= k < j ==> IsAlphaNumeric(src[k])
    ensures IdentEnd(src, i) == j
    decreases j - i
  {
    if i < j { IdentEndAt(src, i + 1, j); }
  }

  /** The token kind of a character that always forms a token on its own. */
  function SingleCharKind(c: char): Option<TokenType> {
    match c
    case '(' => Some(LeftParen)
    case ')' => Some(RightParen)
    case '{' => Some(LeftBrace)
    case '}' => Some(RightBrace)
    case ',' => Some(Comma)
    case '.' => Some(Dot)
    case '-' => Some(Minus)
    case '+' => Some(Plus)
    case ';' => Some(Semicolon)
    case '*' => Some(Star)
    case _ => None
  }

  /** The characters that form a two-character operator when followed by `=`. */
  predicate IsOperatorPrefix(c: char) {
    c == '!' || c == '=' || c == '<' || c == '>'
  }

  /** The kind such a character yields alone. */
  function AloneKind(c: char): TokenType
    requires IsOperatorPrefix(c)
  {
    match c
    case '!' => Bang
    case '=' => Equal
    case '<' => Less
    case _ => Greater
  }

  /** The kind it yields followed by `=`. */
  function WithEqualKind(c: char): TokenType
    requires IsOperatorPrefix(c)
  {
    match c
    case '!' => BangEqual
    case '=' => EqualEqual
    case '<' => LessEqual
    case _ => GreaterEqual
  }

  predicate IsBlank(c: char) {
    c == ' ' || c == '\r' || c == '\t'
  }

  /** The characters `scan_token` has a case for. */
  predicate Recognized(c: char) {
    SingleCharKind(c).Some? || IsOperatorPrefix(c) || c == '/' || c == '"' ||
    IsBlank(c) || c == '\n' || IsDigit(c) || IsAlpha(c)
  }

  /** The outcome of one call of `scan_token`: where the cursor and the line counter
      end up and the token pushed, if any; or the error. */
  datatype Step =
    | Step(next: nat, line: int, token: Option<Token>)
    | Fail(error: ScanError)

  /** A step that pushes the text `src[start..next]` as a token of kind `ty`. */
  function Emit(src: seq<char>, start: nat, next: nat, line: int, ty: TokenType, literal: Option<string>): Step
    requires start <= next <= |src|
  {
    Step(next, line, Some(Token(ty, src[start..next], literal, line)))
  }

  /** `!`, `=`, `<` or `>` at `start`, with `match_char('=')`. */
  function OperatorStep(src: seq<char>, start: nat, line: int): (r: Step)
    requires start < |src| && IsOperatorPrefix(src[start])
    ensures r.Step? && start < r.next <= |src|
  {
    if CharAt(src, start + 1) == '=' then Emit(src, start, start + 2, line, WithEqualKind(src[start]), None)
    else Emit(src, start, start + 1, line, AloneKind(src[start]), None)
  }

  /** `/` at `start`: a comment when another `/` follows, else the `Slash` token. */
  function SlashStep(src: seq<char>, start: nat, line: int): (r: Step)
    requires start < |src| && src[start] == '/'
    ensures r.Step? && start < r.next <= |src|
  {
    if CharAt(src, start + 1) == '/' then Step(RunEnd(src, start + 2, '\n'), line, None)
    else Emit(src, start, start + 1, line, Slash, None)
  }

  /** `string`: a `"` at `start` opens a literal that must be closed. */
  function StringStep(src: seq<char>, start: nat, line: int): (r: Step)
    requires start < |src| && src[start] == '"'
    ensures r.Step? ==> start < r.next <= |src|
  {
    var j := RunEnd(src, start + 1, '"');
    var l := line + Newlines(src, start + 1, j);
    if j == |src| then Fail(StringError(l, "Unterminated string."))
    else Emit(src, start, j + 1, l, StringLit, Some(src[start + 1..j]))
  }

  /** `number`: a digit at `start` opens a number literal. */
  function NumberStep(src: seq<char>, start: nat, line: int): (r: Step)
    requires start < |src| && IsDigit(src[start])
    ensures r.Step? && start < r.next <= |src|
  {
    var j := NumberEnd(src, start + 1);
    Emit(src, start, j, line, NumberLit, Some(src[start..j]))
  }

  /** The number step, given where its two digit loops stopped. */
  lemma NumberStepAt(src: seq<char>, start: nat, line: int, d: nat, j: nat)
    requires start < d <= |src| && !IsDigit(CharAt(src, d))
    requires forall k :: start + 1 <= k < d ==> IsDigit(src[k])
    requires if CharAt(src, d) == '.' && IsDigit(CharAt(src, d + 1))
      then d + 1 <= j <= |src| && !IsDigit(CharAt(src, j)) && forall k :: d + 1 <= k < j ==> IsDigit(src[k])
      else j == d
    ensures j <= |src| && NumberEnd(src, start + 1) == j
  {
    DigitsEndAt(src, start + 1, d);
    if CharAt(src, d) == '.' && IsDigit(CharAt(src, d + 1)) {
      DigitsEndAt(src, d + 1, j);
    }
  }

  /** `identifier`: a letter or `_` at `start` opens a word, typed by the keyword table. */
  function IdentStep(src: seq<char>, start: nat, line: int): (r: Step)
    requires start < |src| && IsAlpha(src[start])
    ensures r.Step? && start < r.next <= |src|
  {
    var j := IdentEnd(src, start + 1);
    var text := src[start..j];
    Emit(src, start, j, line, if text in Keywords() then Keywords()[text] else Ident, None)
  }

  /** One call of `scan_token` with the cursor at `start`. */
  function LexToken(src: seq<char>, start: nat, line: int): (r: Step)
    requires start < |src|
    ensures r.Step? ==> start < r.next <= |src|
  {
    var c := src[start];
    if SingleCharKind(c).Some? then Emit(src, start, start + 1, line, SingleCharKind(c).value, None)
    else if IsOperatorPrefix(c) then OperatorStep(src, start, line)
    else if c == '/' then SlashStep(src, start, line)
    else if c == '"' then StringStep(src, start, line)
    else if IsBlank(c) then Step(start + 1, line, None)
    else if c == '\n' then Step(start + 1, line + 1, None)
    else if IsDigit(c) then NumberStep(src, start, line)
    else if IsAlpha(c) then IdentStep(src, start, line)
    else Fail(UnexpectedTokenError(line, "Unexpected token"))
  }

  /** Prefix the tokens of a successful scan; errors pass through. */
  function Prepend(ts: seq<Token>, r: Result<seq<Token>, ScanError>): Result<seq<Token>, ScanError> {
    match r
    case Ok(rest) => Ok(ts + rest)
    case Err(e) => Err(e)
  }

  /** The scan from cursor `cur` on: the tokens of every step, then `EOF` on the final
      line; the first failing step ends the scan with its error. */
  function LexFrom(src: seq<char>, cur: nat, line: int): Result<seq<Token>, ScanError>
    requires cur <= |src|
    decreases |src| - cur
  {
    if cur == |src| then Ok([Token(EOF, "", None, line)])
    else
      match LexToken(src, cur, line)
      case Fail(e) => Err(e)
      case Step(next, l, t) => Prepend(OptionToSeq(t), LexFrom(src, next, l))
  }

  /** One step of the scan, seen from the tokens already pushed. */
  lemma LexFromStep(src: seq<char>, cur: nat, line: int, ts: seq<Token>)
    requires cur < |src|
    ensures LexToken(src, cur, line).Fail? ==>
      Prepend(ts, LexFrom(src, cur, line)) == Err(LexToken(src, cur, line).error)
    ensures LexToken(src, cur, line).Step? ==>
      var st := LexToken(src, cur, line);
      Prepend(ts, LexFrom(src, cur, line)) == Prepend(ts + OptionToSeq(st.token), LexFrom(src, st.next, st.line))
  {
    var st := LexToken(src, cur, line);
    if st.Step? {
      match LexFrom(src, st.next, st.line)
      case Ok(rest) =>
        assert ts + (OptionToSeq(st.token) + rest) == (ts + OptionToSeq(st.token)) + rest;
      case Err(_) =>
    }
  }

  /** What `Scanner::build(src).scan_tokens()` returns. */
  function Lex(src: seq<char>): Result<seq<Token>, ScanError> {
    LexFrom(src, 0, 1)
  }

  class Scanner {
    const source: seq<char>
    var start: int
    var current: int
    var line: int
    var tokens: seq<Token>

    ghost predicate Valid()
      reads this
    {
      0 <= start <= current <= |source|
    }

    /** `Scanner::build`: cursor at 0, line 1, no tokens, the keyword table. */
    constructor Build(source: seq<char>)
      ensures Valid()
      ensures this.source == source && start == 0 && current == 0 && line == 1 && tokens == []
    {
      this.source := source;
      start, current, line := 0, 0, 1;
      tokens := [];
    }

    /** `scan_tokens`: scan steps until the end of the text, then push `EOF`. */
    method ScanTokens() returns (r: Result<seq<Token>, ScanError>)
      requires Valid()
      modifies this
      ensures Valid()
      ensures r == Prepend(old(tokens), LexFrom(source, old(current), old(line)))
      ensures r.Ok? ==> tokens == r.value && current == |source|
      ensures old(tokens) <= tokens
    {
      while !IsEnd()
        invariant Valid()
        invariant old(tokens) <= tokens
        invariant Prepend(old(tokens), LexFrom(source, old(current), old(line)))
               == Prepend(tokens, LexFrom(source, current, line))
        decreases |source| - current
      {
        start := current;
        LexFromStep(source, current, line, tokens);
        var res := ScanToken();
        if res.Err? {
          return Err(res.error);
        }
      }
      tokens := tokens + [Token(EOF, "", None, line)];
      return Ok(tokens);
    }

    function IsEnd(): (b: bool)
      reads this
      ensures b <==> current >= |source|
    {
      current >= |source|
    }

    /** `advance`: return the character under the cursor and step past it. */
    method Advance() returns (c: char)
      requires Valid() && current < |source|
      modifies this`current
      ensures Valid() && current == old(current) + 1
      ensures c == source[old(current)]
    {
      c := source[current];
      current := current + 1;
    }

    /** `add_token`: push the text between `start` and the cursor as a token. */
    method AddToken(ty: TokenType)
      requires Valid()
      modifies this`tokens
      ensures tokens == old(tokens) + [Token(ty, source[start..current], None, line)]
    {
      tokens := tokens + [Token(ty, source[start..current], None, line)];
    }

    /** `add_token_val`: the same, with a literal text. */
    method AddTokenVal(ty: TokenType, value: string)
      requires Valid()
      modifies this`tokens
      ensures tokens == old(tokens) + [Token(ty, source[start..current], Some(value), line)]
    {
      tokens := tokens + [Token(ty, source[start..current], Some(value), line)];
    }

    /** `match_char`: consume the next character exactly when it is `expected`. */
    method MatchChar(expected: char) returns (b: bool)
      requires Valid()
      modifies this`current
      ensures Valid()
      ensures b <==> old(current) < |source| && source[old(current)] == expected
      ensures current == if b then old(current) + 1 else old(current)
    {
      if IsEnd() {
        return false;
      }
      if source[current] != expected {
        return false;
      }
      current := current + 1;
      return true;
    }

    /** `peek`: the character under the cursor, NUL at the end. */
    function Peek(): (c: char)
      reads this
      requires Valid()
      ensures c == CharAt(source, current)
    {
      if IsEnd() then '\0' else source[current]
    }

    /** `peek_next`: the character after it, NUL past the end. */
    function PeekNext(): (c: char)
      reads this
      requires Valid()
      ensures c == CharAt(source, current + 1)
    {
      if current + 1 >= |source| then '\0' else source[current + 1]
    }

    /** `string`, entered just after the opening quote. */
    method String() returns (r: Result<(), ScanError>)
      requires Valid() && start < |source| && source[start] == '"' && current == start + 1
      modifies this`current, this`line, this`tokens
      ensures Valid()
      ensures StringStep(source, start, old(line)).Fail? ==>
        var e := StringStep(source, start, old(line)).error;
        r == Err(e) && current == |source| && line == e.line && tokens == old(tokens)
      ensures StringStep(source, start, old(line)).Step? ==>
        var st := StringStep(source, start, old(line));
        r.Ok? && current == st.next && line == st.line && tokens == old(tokens) + OptionToSeq(st.token)
    {
      while Peek() != '"' && !IsEnd()
        invariant start + 1 <= current <= |source| && tokens == old(tokens)
        invariant forall k :: start + 1 <= k < current ==> source[k] != '"'
        invariant line == old(line) + Newlines(source, start + 1, current)
        decreases |source| - current
      {
        if Peek() == '\n' {
          line := line + 1;
        }
        var _ := Advance();
      }
      RunEndAt(source, start + 1, current, '"');
      if IsEnd() {
        r := Err(StringError(line, "Unterminated string."));
      } else {
        var _ := Advance();
        AddTokenVal(StringLit, source[start + 1..current - 1]);
        r := Ok(());
      }
    }

    /** `number`, entered just after the first digit. */
    method Number()
      requires Valid() && start < |source| && IsDigit(source[start]) && current == start + 1
      modifies this`current, this`tokens
      ensures Valid()
      ensures var st := NumberStep(source, start, line);
        current == st.next && tokens == old(tokens) + OptionToSeq(st.token)
    {
      while IsDigit(Peek())
        invariant start + 1 <= current <= |source| && tokens == old(tokens)
        invariant forall k :: start + 1 <= k < current ==> IsDigit(source[k])
        decreases |source| - current
      {
        var _ := Advance();
      }
      ghost var d := current;
      if Peek() == '.' && IsDigit(PeekNext()) {
        var _ := Advance();
        while IsDigit(Peek())
          invariant d + 1 <= current <= |source| && tokens == old(tokens)
          invariant forall k :: d + 1 <= k < current ==> IsDigit(source[k])
          decreases |source| - current
        {
          var _ := Advance();
        }
      }
      NumberStepAt(source, start, line, d, current);
      var value := source[start..current];
      AddTokenVal(NumberLit, value);
    }

    /** `identifier`, entered just after the first letter or `_`. */
    method Identifier()
      requires Valid() && start < |source| && IsAlpha(source[start]) && current == start + 1
      modifies this`current, this`tokens
      ensures Valid()
      ensures var st := IdentStep(source, start, line);
        current == st.next && tokens == old(tokens) + OptionToSeq(st.token)
    {
      while IsAlphaNumeric(Peek())
        invariant start + 1 <= current <= |source| && tokens == old(tokens)
        invariant forall k :: start + 1 <= k < current ==> IsAlphaNumeric(source[k])
        decreases |source| - current
      {
        var _ := Advance();
      }
      IdentEndAt(source, start + 1, current);
      var value := source[start..current];
      if value in Keywords() {
        AddToken(Keywords()[value]);
      } else {
        AddToken(Ident);
      }
    }

    /** `scan_token`: one step from `start`, which the caller has set to the cursor. */
    method ScanToken() returns (r: Result<(), ScanError>)
      requires Valid() && start == current && current < |source|
      modifies this`current, this`line, this`tokens
      ensures Valid()
      ensures LexToken(source, old(current), old(line)).Fail? ==>
        var e := LexToken(source, old(current), old(line)).error;
        && r == Err(e) && line == e.line && tokens == old(tokens)
        && current == if source[old(current)] == '"' then |source| else old(current) + 1
      ensures LexToken(source, old(current), old(line)).Step? ==>
        var st := LexToken(source, old(current), old(line));
        r.Ok? && current == st.next && line == st.line && tokens == old(tokens) + OptionToSeq(st.token)
    {
      var c := Advance();
      if SingleCharKind(c).Some? {
        AddToken(SingleCharKind(c).value);
      } else if IsOperatorPrefix(c) {
        var eq := MatchChar('=');
        AddToken(if eq then WithEqualKind(c) else AloneKind(c));
      } else if c == '/' {
        var slash := MatchChar('/');
        if slash {
          while Peek() != '\n' && !IsEnd()
            invariant start + 2 <= current <= |source| && tokens == old(tokens) && line == old(line)
            invariant forall k :: start + 2 <= k < current ==> source[k] != '\n'
            decreases |source| - current
          {
            var _ := Advance();
          }
          RunEndAt(source, start + 2, current, '\n');
        } else {
          AddToken(Slash);
        }
      } else if c == '"' {
        r := String();
        return;
      } else if IsBlank(c) {
      } else if c == '\n' {
        line := line + 1;
      } else if IsDigit(c) {
        Number();
      } else if IsAlpha(c) {
        Identifier();
      } else {
        return Err(UnexpectedTokenError(line, "Unexpected token"));
      }
      return Ok(());
    }
  }
}
