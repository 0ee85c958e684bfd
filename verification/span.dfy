/** Source spans and the span renderer (rlok_lib/src/span.rs).

    A `Span` is a plain value (it derives `Clone` and every AST node holds its own
    copy), so its setters are modelled as functions returning the updated span. */
module Spans {
  import opened Tokens

  /** The token indices a node covers; both fields are `i32` in the source. */
  datatype Span = Span(first: int, last: int) {

    /** `Span::new`: `last` takes `i32::default()`, which is 0. */
    static function New(first: int): (s: Span)
      ensures s.first == first && s.last == 0
    {
      Span(first, 0)
    }

    /** `set_first_and_last`: both fields are replaced. */
    function SetFirstAndLast(first: int, last: int): (s: Span)
      ensures s.first == first && s.last == last
    {
      this.(first := first, last := last)
    }

    /** `set_first`: only `first` changes. */
    function SetFirst(first: int): (s: Span)
      ensures s.first == first && s.last == this.last
    {
      this.(first := first)
    }

    /** `set_last`: only `last` changes. */
    function SetLast(last: int): (s: Span)
      ensures s.last == last && s.first == this.first
    {
      this.(last := last)
    }

    /** `done`: a copy with the same bounds. */
    function Done(): (s: Span)
      ensures s.first == this.first && s.last == this.last
    {
      Span(first, last)
    }

    function First(): (f: int)
      ensures f == this.first
    {
      first
    }

    function Last(): (l: int)
      ensures l == this.last
    {
      last
    }
  }

  /** `SpanParser::get_underline`: `spaceBefore` blanks, then `numUnderline` carets,
      then the marker text. */
  method GetUnderline(spaceBefore: nat, numUnderline: nat) returns (output: string)
    ensures |output| == spaceBefore + numUnderline + 8
    ensures forall i :: 0 <= i < spaceBefore ==> output[i] == ' '
    ensures forall i :: spaceBefore <= i < spaceBefore + numUnderline ==> output[i] == '^'
    ensures output[spaceBefore + numUnderline..] == "--- Here"
  {
    output := "";
    for k := 0 to spaceBefore
      invariant |output| == k
      invariant forall i :: 0 <= i < k ==> output[i] == ' '
    {
      output := output + " ";
    }
    for k := 0 to numUnderline
      invariant |output| == spaceBefore + k
      invariant forall i :: 0 <= i < spaceBefore ==> output[i] == ' '
      invariant forall i :: spaceBefore <= i < spaceBefore + k ==> output[i] == '^'
    {
      output := output + "^";
    }
    output := output + "--- Here";
  }

  /** `tokens.get(i)` with an `i32` index cast to `usize`: a negative index wraps to
      a huge value, so it is present only when it lies inside the list. */
  predicate HasIndex(tokens: seq<Token>, i: int) {
    0 <= i < |tokens|
  }

  /** `tokens.get(a as usize..b as usize)` is `Some` exactly for an in-range,
      non-decreasing pair of non-negative bounds. */
  predicate HasRange(tokens: seq<Token>, a: int, b: int) {
    0 <= a <= b <= |tokens|
  }

  /** Sum of the lexeme lengths of a run of tokens. */
  function LexemeWidth(ts: seq<Token>): nat {
    if ts == [] then 0 else LexemeWidth(ts[..|ts| - 1]) + |ts[|ts| - 1].lexeme|
  }

  /** What `SpanParser::parse` decides, short of the text it formats: it panics on
      an empty underline slice (the `unwrap` of `reduce`); it underflows when it
      subtracts the width of the closing line label from a space count that was
      never increased because the run before the span is empty; it reports
      "TOKEN OUT OF BOUNDS" when the widened range is not inside the list; and
      otherwise renders the widened line with `underline` carets. */
  datatype SpanReport =
    | Panicked
    | Underflow
    | OutOfBounds
    | Excerpt(start: int, end: int, underline: nat)

  /** The text `parse` returns for an out-of-bounds range. */
  const OutOfBoundsText := "TOKEN OUT OF BOUNDS"

  /** Where the left walk of `parse` stops when it starts at `from`: just after the
      nearest `NewLine` before `from`, or at the first index whose predecessor is
      not in the list. */
  function WidenStart(tokens: seq<Token>, from: int): (start: int)
    ensures start <= from
    ensures !HasIndex(tokens, start - 1) || tokens[start - 1].ty.NewLine?
    ensures start < from ==> 0 <= start && from <= |tokens|
    ensures forall k :: start <= k < from ==> !tokens[k].ty.NewLine?
    decreases from
  {
    if HasIndex(tokens, from - 1) && !tokens[from - 1].ty.NewLine? then WidenStart(tokens, from - 1) else from
  }

  /** Where the right walk of `parse` stops when it starts at `from`: just before the
      nearest `NewLine` or `EOF` after `from`, or at the last index whose successor
      is not in the list. */
  function WidenEnd(tokens: seq<Token>, from: int): (end: int)
    ensures end >= from
    ensures !HasIndex(tokens, end + 1) || tokens[end + 1].ty in {NewLine, EOF}
    ensures end > from ==> from >= -1 && end < |tokens|
    ensures forall k :: from < k <= end ==> tokens[k].ty !in {NewLine, EOF}
    decreases |tokens| - from
  {
    if HasIndex(tokens, from + 1) && tokens[from + 1].ty !in {NewLine, EOF} then WidenEnd(tokens, from + 1) else from
  }

  /** The two widening loops of `SpanParser::parse`: `start` walks left over tokens
      that are not `NewLine`, `end` walks right while the next token is neither
      `NewLine` nor `EOF`. */
  method WidenSpan(span: Span, tokens: seq<Token>) returns (start: int, end: int)
    ensures start == WidenStart(tokens, span.first)
    ensures end == WidenEnd(tokens, span.last)
  {
    start := span.First();
    end := span.Last();
    while HasIndex(tokens, start - 1) && !tokens[start - 1].ty.NewLine?
      invariant WidenStart(tokens, start) == WidenStart(tokens, span.first)
      decreases start
    {
      start := start - 1;
    }
    while HasIndex(tokens, end + 1) && tokens[end + 1].ty !in {NewLine, EOF}
      invariant WidenEnd(tokens, end) == WidenEnd(tokens, span.last)
      decreases |tokens| - end
    {
      end := end + 1;
    }
  }

  /** The decisions of `SpanParser::parse`. The width of the underline is folded with
      `reduce`, which starts from the first token of `tokens[first-1..last]` without
      adding its length, so only `tokens[first..last]` is measured; an empty slice
      makes the `unwrap` panic. The count of spaces before the underline grows only
      while folding the run `tokens[start..first]`; when that run is empty or absent
      the count stays 0, and subtracting the label width from it underflows whenever
      a token follows the excerpt. */
  method Parse(span: Span, tokens: seq<Token>) returns (report: SpanReport)
    ensures report.Panicked? <==> HasRange(tokens, span.first - 1, span.last) && span.first - 1 == span.last
    ensures var start, end := WidenStart(tokens, span.first), WidenEnd(tokens, span.last);
      report.Underflow? <==>
        && !(HasRange(tokens, span.first - 1, span.last) && span.first - 1 == span.last)
        && HasRange(tokens, start, end) && HasIndex(tokens, end)
        && !(HasRange(tokens, start, span.first) && start < span.first)
    ensures var start, end := WidenStart(tokens, span.first), WidenEnd(tokens, span.last);
      report.OutOfBounds? <==>
        !(HasRange(tokens, span.first - 1, span.last) && span.first - 1 == span.last) && !HasRange(tokens, start, end)
    ensures report.Excerpt? ==>
      && report.start == WidenStart(tokens, span.first) && report.end == WidenEnd(tokens, span.last)
      && report.start <= span.first && report.end >= span.last
      && HasRange(tokens, report.start, report.end)
      && report.underline == (if HasRange(tokens, span.first - 1, span.last) then LexemeWidth(tokens[span.first..span.last]) else 0)
    ensures !report.Panicked? && HasRange(tokens, span.first, span.last) && span.first <= span.last ==> !report.OutOfBounds?
  {
    var start, end := WidenSpan(span, tokens);
    var numUnderline := 0;
    if HasRange(tokens, span.first - 1, span.last) {
      if span.first - 1 == span.last {
        return Panicked;
      }
      var k := span.first;
      while k < span.last
        invariant span.first <= k <= span.last
        invariant numUnderline == LexemeWidth(tokens[span.first..k])
      {
        assert tokens[span.first..k + 1][..k - span.first] == tokens[span.first..k];
        numUnderline := numUnderline + |tokens[k].lexeme|;
        k := k + 1;
      }
    }
    var prefixed := HasRange(tokens, start, span.first) && start < span.first;
    if !HasRange(tokens, start, end) {
      report := OutOfBounds;
    } else if HasIndex(tokens, end) && !prefixed {
      report := Underflow;
    } else {
      report := Excerpt(start, end, numUnderline);
    }
  }
}
