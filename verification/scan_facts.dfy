/** What the scanner promises about the tokens it produces (rlok_lib/src/scanner.rs),
    stated over the step and scan functions of module `Scanning`. */
module ScanFacts {
  import opened Wrappers
  import opened Tokens
  import opened Scanning

  /** One step consumes `src[start..next]`; the line counter grows by the number of
      line feeds in exactly that text. */
  lemma StepCountsLines(src: seq<char>, start: nat, line: int)
    requires start < |src|
    ensures var st := LexToken(src, start, line);
      st.Step? ==> st.line == line + Newlines(src, start, st.next)
  {
    var c := src[start];
    var st := LexToken(src, start, line);
    if st.Step? {
      if c == '"' {
        var j := RunEnd(src, start + 1, '"');
        NewlinesSplit(src, start, start + 1, j);
        NewlinesSplit(src, start, j, j + 1);
      } else if c == '\n' {
      } else if IsDigit(c) {
        var d := DigitsEnd(src, start + 1);
        assert forall k :: start <= k < st.next ==> IsDigit(src[k]) || src[k] == '.';
        NoNewlines(src, start, st.next);
      } else {
        assert forall k :: start <= k < st.next ==> src[k] != '\n';
        NoNewlines(src, start, st.next);
      }
    }
  }

  /** No step produces the `EOF` token. */
  lemma StepNeverEof(src: seq<char>, start: nat, line: int)
    requires start < |src|
    ensures var st := LexToken(src, start, line);
      st.Step? && st.token.Some? ==> !st.token.value.ty.EOF?
  {
    var st := LexToken(src, start, line);
    if st.Step? && st.token.Some? && IsAlpha(src[start]) {
      KeywordsNeverEof();
    }
  }

  lemma KeywordsNeverEof()
    ensures EOF !in Keywords().Values
  {
  }

  /** A successful scan from `cur` ends with exactly one `EOF` token, whose lexeme is
      empty and whose line is `line` plus the line feeds of the rest of the text. */
  lemma {:induction false} ScanEndsWithEof(src: seq<char>, cur: nat, line: int)
    requires cur <= |src|
    ensures LexFrom(src, cur, line).Ok? ==>
      var ts := LexFrom(src, cur, line).value;
      |ts| > 0 && ts[|ts| - 1] == Token(EOF, "", None, line + Newlines(src, cur, |src|)) &&
      forall k :: 0 <= k < |ts| - 1 ==> !ts[k].ty.EOF?
    decreases |src| - cur
  {
    if cur < |src| {
      var st := LexToken(src, cur, line);
      if st.Step? {
        ScanEndsWithEof(src, st.next, st.line);
        StepCountsLines(src, cur, line);
        StepNeverEof(src, cur, line);
        NewlinesSplit(src, cur, st.next, |src|);
      }
    }
  }

  /** `scan_tokens` on a whole text: the token list ends with the one `EOF`, on line
      1 plus the number of line feeds in the text. */
  lemma LexEndsWithEof(src: seq<char>)
    ensures Lex(src).Ok? ==>
      var ts := Lex(src).value;
      |ts| > 0 && ts[|ts| - 1] == Token(EOF, "", None, 1 + Newlines(src, 0, |src|)) &&
      forall k :: 0 <= k < |ts| - 1 ==> !ts[k].ty.EOF?
  {
    ScanEndsWithEof(src, 0, 1);
  }

  /** `!`, `=`, `<`, `>`: the two-character operator exactly when `=` follows, which
      is then consumed; otherwise the one-character operator. */
  lemma OperatorToken(src: seq<char>, i: nat, line: int)
    requires i < |src| && IsOperatorPrefix(src[i])
    ensures var st := LexToken(src, i, line);
      st.Step? && st.line == line && st.token.Some? &&
      var t := st.token.value;
      t.lexeme == src[i..st.next] && t.literal == None &&
      (CharAt(src, i + 1) == '=' <==> t.ty in {BangEqual, EqualEqual, LessEqual, GreaterEqual}) &&
      (CharAt(src, i + 1) == '=' ==> st.next == i + 2 && t.ty == WithEqualKind(src[i])) &&
      (CharAt(src, i + 1) != '=' ==> st.next == i + 1 && t.ty == AloneKind(src[i]))
  {
  }

  /** `//` runs up to, not including, the next line feed and emits nothing. */
  lemma CommentSkipped(src: seq<char>, i: nat, line: int)
    requires i + 1 < |src| && src[i] == '/' && src[i + 1] == '/'
    ensures var st := LexToken(src, i, line);
      st.Step? && st.token == None && st.line == line && i + 2 <= st.next <= |src| &&
      (st.next < |src| ==> src[st.next] == '\n') &&
      forall k :: i + 2 <= k < st.next ==> src[k] != '\n'
  {
  }

  /** Blanks emit nothing and keep the line; a line feed emits nothing and counts. */
  lemma WhitespaceSkipped(src: seq<char>, i: nat, line: int)
    requires i < |src| && (IsBlank(src[i]) || src[i] == '\n')
    ensures var st := LexToken(src, i, line);
      st.Step? && st.token == None && st.next == i + 1 &&
      st.line == if src[i] == '\n' then line + 1 else line
  {
  }

  /** What a string literal step promises: it fails exactly when no closing quote
      follows; otherwise its lexeme is quoted and its literal is the text strictly
      between the quotes. */
  predicate StringOutcome(src: seq<char>, i: nat, line: int, st: Step)
    requires i < |src|
  {
    (st.Fail? <==> forall k :: i < k < |src| ==> src[k] != '"') &&
    (st.Fail? ==> st.error == StringError(line + Newlines(src, i, |src|), "Unterminated string.")) &&
    (st.Step? ==>
      i < st.next <= |src| && st.token.Some? && st.line == line + Newlines(src, i, st.next) &&
      var t := st.token.value;
      t.ty.StringLit? && t.line == st.line && t.lexeme == src[i..st.next] &&
      2 <= |t.lexeme| && t.lexeme[0] == '"' && t.lexeme[|t.lexeme| - 1] == '"' &&
      t.literal == Some(t.lexeme[1..|t.lexeme| - 1]) &&
      forall k :: 0 <= k < |t.lexeme| - 2 ==> t.literal.value[k] != '"')
  }

  lemma StringToken(src: seq<char>, i: nat, line: int)
    requires i < |src| && src[i] == '"'
    ensures StringOutcome(src, i, line, LexToken(src, i, line))
  {
    assert LexToken(src, i, line) == StringStep(src, i, line);
    StringStepOutcome(src, i, line);
  }

  lemma StringStepOutcome(src: seq<char>, i: nat, line: int)
    requires i < |src| && src[i] == '"'
    ensures StringOutcome(src, i, line, StringStep(src, i, line))
  {
    var j := RunEnd(src, i + 1, '"');
    NewlinesSplit(src, i, i + 1, j);
    var l := line + Newlines(src, i, j);
    if j < |src| {
      NewlinesSplit(src, i, j, j + 1);
      assert Newlines(src, i, j + 1) == Newlines(src, i, j);
      var lexeme := src[i..j + 1];
      assert StringStep(src, i, line) == Step(j + 1, l, Some(Token(StringLit, lexeme, Some(src[i + 1..j]), l)));
      QuotedText(src, i, j);
    } else {
      assert StringStep(src, i, line) == Fail(StringError(l, "Unterminated string."));
    }
  }

  /** The text from one `"` to the next, quotes included, and what lies between. */
  lemma QuotedText(src: seq<char>, i: nat, j: nat)
    requires i < j < |src| && src[i] == '"' && src[j] == '"'
    requires forall k :: i < k < j ==> src[k] != '"'
    ensures var lexeme := src[i..j + 1];
      2 <= |lexeme| && lexeme[0] == '"' && lexeme[|lexeme| - 1] == '"' &&
      lexeme[1..|lexeme| - 1] == src[i + 1..j] && '"' !in src[i + 1..j]
  {
    var inner := src[i + 1..j];
    var lexeme := src[i..j + 1];
    assert |lexeme[1..|lexeme| - 1]| == |inner|;
    forall k | 0 <= k < |inner|
      ensures lexeme[1..|lexeme| - 1][k] == inner[k]
    {
      assert lexeme[1..|lexeme| - 1][k] == lexeme[k + 1] == src[i + 1 + k];
    }
    forall k | 0 <= k < |inner|
      ensures inner[k] != '"'
    {
      assert inner[k] == src[i + 1 + k];
    }
  }

  /** Digits, optionally followed by `.` and digits. */
  predicate IsNumberText(s: string) {
    0 < |s| &&
    ((forall k :: 0 <= k < |s| ==> IsDigit(s[k])) ||
     (exists p :: 0 < p < |s| - 1 && s[p] == '.' &&
        forall k :: 0 <= k < |s| && k != p ==> IsDigit(s[k])))
  }

  /** A number is the longest digit run, extended by `.` and digits only when a digit
      follows the `.`; its literal is its lexeme. */
  lemma NumberToken(src: seq<char>, i: nat, line: int)
    requires i < |src| && IsDigit(src[i])
    ensures var st := LexToken(src, i, line);
      st.Step? && st.line == line && st.token.Some? &&
      var t := st.token.value;
      t.ty.NumberLit? && t.lexeme == src[i..st.next] && t.literal == Some(t.lexeme) &&
      IsNumberText(t.lexeme) && !IsDigit(CharAt(src, st.next)) &&
      ('.' !in t.lexeme ==> !(CharAt(src, st.next) == '.' && IsDigit(CharAt(src, st.next + 1))))
  {
    var st := LexToken(src, i, line);
    var d := DigitsEnd(src, i + 1);
    var s := src[i..st.next];
    if CharAt(src, d) == '.' && IsDigit(CharAt(src, d + 1)) {
      assert s[d - i] == '.';
      assert forall k :: 0 <= k < |s| && k != d - i ==> IsDigit(s[k]);
    } else {
      assert forall k :: 0 <= k < |s| ==> IsDigit(s[k]);
    }
  }

  /** An identifier is the longest run of letters, digits and `_` that starts with a
      letter or `_`; the keyword table decides its kind. */
  lemma IdentifierToken(src: seq<char>, i: nat, line: int)
    requires i < |src| && IsAlpha(src[i])
    ensures var st := LexToken(src, i, line);
      st.Step? && st.line == line && st.token.Some? &&
      var t := st.token.value;
      t.lexeme == src[i..st.next] && t.literal == None &&
      (forall k :: 0 <= k < |t.lexeme| ==> IsAlphaNumeric(t.lexeme[k])) &&
      !IsAlphaNumeric(CharAt(src, st.next)) &&
      t.ty == if t.lexeme in Keywords() then Keywords()[t.lexeme] else Ident
  {
  }

  /** A character outside every case of `scan_token` is exactly what fails with
      `UnexpectedTokenError`. */
  lemma UnexpectedCharacter(src: seq<char>, i: nat, line: int)
    requires i < |src|
    ensures LexToken(src, i, line) == Fail(UnexpectedTokenError(line, "Unexpected token"))
        <==> !Recognized(src[i])
  {
  }

  /** The first failing step is the result of the whole scan: nothing after it is
      scanned. */
  lemma ScanStopsAtFirstError(src: seq<char>, cur: nat, line: int)
    requires cur < |src| && LexToken(src, cur, line).Fail?
    ensures LexFrom(src, cur, line) == Err(LexToken(src, cur, line).error)
  {
  }
}
