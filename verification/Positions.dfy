/** Offsets, lines and columns of a text, counted in bytes. */
module Positions {
  import opened Texts

  /** Unsigned 64-bit integers wrap below zero. */
  const UINT_MODULUS: nat := 0x1_0000_0000_0000_0000

  function ToUint(x: int): (r: nat)
    ensures 0 <= x < UINT_MODULUS ==> r == x
  {
    x % UINT_MODULUS
  }

  datatype Position = Position(line: nat, character: nat)

  // ----- line starts -----

  predicate IsBreak(b: char) {
    b == '\r' || b == '\n'
  }

  /** A line starts at the beginning of a text and after every line break, where a
      carriage return and a line feed together are one break. */
  predicate IsLineStart(text: Text, o: nat)
    requires o <= |text|
  {
    text != [] && (o == 0 || (IsBreak(text[o - 1]) && !(text[o - 1] == '\r' && o < |text| && text[o] == '\n')))
  }

  /** The line starts before offset `n`, in order. */
  function Starts(text: Text, n: nat): (r: seq<nat>)
    requires n <= |text| + 1
    ensures forall o: nat {:trigger o in r} :: o in r <==> o < n && IsLineStart(text, o)
    ensures forall i, j :: 0 <= i < j < |r| ==> r[i] < r[j]
  {
    if n == 0 then [] else
      var front := Starts(text, n - 1);
      assert forall i :: 0 <= i < |front| ==> front[i] in front;
      if IsLineStart(text, n - 1) then front + [n - 1] else front
  }

  function LineStarts(text: Text): seq<nat> {
    Starts(text, |text| + 1)
  }

  lemma NoLines()
    ensures LineStarts("") == []
  {
    assert Starts("", 0) == [];
  }

  /** `GetLineOffsets2`. */
  method GetLineOffsets(text: Text) returns (offsets: seq<nat>)
    ensures offsets == LineStarts(text)
  {
    var i := 0;
    offsets := [];
    var isLineStart := true;
    var textLength := |text|;
    while i < textLength
      invariant 0 <= i <= textLength && offsets == Starts(text, i)
      invariant text != [] ==> (isLineStart <==> IsLineStart(text, i))
    {
      if isLineStart {
        offsets := offsets + [i];
      }
      var ch := text[i];
      isLineStart := ch == '\r' || ch == '\n';
      if ch == '\r' && i + 1 < textLength && text[i + 1] == '\n' {
        i := i + 1;
      }
      i := i + 1;
    }
    if isLineStart && textLength > 0 {
      offsets := offsets + [textLength];
    }
  }

  // ----- from offsets to positions and back -----

  /** How many line starts come before the first one above `offset`. */
  function LinesUpTo(lines: seq<nat>, offset: int): (k: nat)
    ensures k <= |lines|
    ensures forall i :: 0 <= i < k ==> lines[i] <= offset
    ensures k < |lines| ==> lines[k] > offset
    decreases |lines|
  {
    if lines == [] || lines[0] > offset then 0 else 1 + LinesUpTo(lines[1..], offset)
  }

  /** `GetPositionForOffset2`.  A text without any line start has its end in line
      2^64 - 1, and an offset in a last line without line break is taken for the
      beginning of the text, unless the text has one line only. */
  function PositionOf(text: Text, offset: int): Position {
    var lines := LineStarts(text);
    if offset >= |text| then Position(ToUint(|lines| - 1), 0)
    else if |lines| == 1 then Position(0, ToUint(offset))
    else
      var k := LinesUpTo(lines, offset);
      if k == |lines| then Position(0, 0)
      else if k > 0 then Position(k - 1, ToUint(offset - lines[k - 1]))
      else Position(0, ToUint(offset))
  }

  method GetPositionForOffset(content: Text, offset: int) returns (p: Position)
    ensures p == PositionOf(content, offset)
  {
    var lineOffsets := GetLineOffsets(content);
    if offset >= |content| {
      return Position(ToUint(|lineOffsets| - 1), 0);
    }
    var line, character := 0, 0;
    if |lineOffsets| == 1 {
      return Position(0, ToUint(offset));
    }
    for index := 0 to |lineOffsets|
      invariant line == 0 && character == 0
      invariant forall i :: 0 <= i < index ==> lineOffsets[i] <= offset
    {
      if lineOffsets[index] > offset {
        if index > 0 {
          line, character := index - 1, offset - lineOffsets[index - 1];
        } else {
          line, character := 0, offset;
        }
        break;
      }
    }
    return Position(line, ToUint(character));
  }

  function Min(a: int, b: int): int {
    if a < b then a else b
  }

  function Max(a: int, b: int): int {
    if a < b then b else a
  }

  /** The offset a file finds for a position.  The last line is cut off at the number
      of lines, not at the end of the text. */
  function OffsetOf(lines: seq<nat>, length: nat, p: Position): nat {
    if p.line >= |lines| then length
    else
      var next := if p.line + 1 < |lines| then lines[p.line + 1] else |lines|;
      Max(Min(ToUint(lines[p.line] + p.character), next), lines[p.line])
  }

  class File {
    var Content: Text
    var LineOffsets: seq<nat>

    ghost predicate Valid()
      reads this
    {
      LineOffsets == LineStarts(Content)
    }

    constructor ()
      ensures Valid() && Content == ""
    {
      LineOffsets := [];
      Content := "";
      NoLines();
    }

    method SetContent(content: Text)
      modifies this
      ensures Valid() && Content == content
    {
      LineOffsets := GetLineOffsets(content);
      Content := content;
    }

    method GetOffsetForPosition(p: Position) returns (offset: nat)
      requires Valid()
      ensures offset == OffsetOf(LineStarts(Content), |Content|, p)
    {
      var lines := |LineOffsets|;
      if p.line >= lines {
        return |Content|;
      }
      var lineOffset := LineOffsets[p.line];
      var nextLineOffset: nat;
      if p.line + 1 < lines {
        nextLineOffset := LineOffsets[p.line + 1];
      } else {
        nextLineOffset := lines;
      }
      return Max(Min(ToUint(lineOffset + p.character), nextLineOffset), lineOffset);
    }
  }

  // ----- the round trip -----

  predicate EndsInBreak(text: Text) {
    text != [] && IsBreak(text[|text| - 1])
  }

  ghost predicate RoundTrips(text: Text, offset: nat) {
    OffsetOf(LineStarts(text), |text|, PositionOf(text, offset)) == offset
  }

  /** In a text that ends in a line break the last line starts at its end. */
  lemma LastLine(text: Text)
    requires text != []
    ensures var lines := LineStarts(text);
            && lines != [] && lines[0] == 0 && lines[|lines| - 1] <= |text|
            && (lines[|lines| - 1] == |text| <==> EndsInBreak(text))
  {
    var lines := LineStarts(text);
    assert 0 in lines;
    assert lines[0] in lines && lines[|lines| - 1] in lines;
    if EndsInBreak(text) {
      assert |text| in lines;
    }
  }

  lemma OffsetRoundTrips(text: Text, offset: nat)
    requires offset <= |text| && EndsInBreak(text) && |text| < UINT_MODULUS
    ensures RoundTrips(text, offset)
  {
    hide ToUint;
    LastLine(text);
    StartsBound(text, |text| + 1);
  }

  lemma {:induction false} StartsBound(text: Text, n: nat)
    requires n <= |text| + 1
    ensures |Starts(text, n)| <= n
  {
    if n > 0 {
      StartsBound(text, n - 1);
    }
  }

  /** Positions lead back to their offsets in exactly the texts that are empty or end
      in a line break. */
  lemma RoundTripsExactlyWhen(text: Text)
    requires |text| < UINT_MODULUS
    ensures (forall offset: nat :: offset <= |text| ==> RoundTrips(text, offset)) <==> text == [] || EndsInBreak(text)
  {
    hide ToUint;
    if text == [] {
      NoLines();
    } else {
      LastLine(text);
      StartsBound(text, |text| + 1);
      if EndsInBreak(text) {
        forall offset: nat | offset <= |text|
          ensures RoundTrips(text, offset)
        {
          OffsetRoundTrips(text, offset);
        }
      } else {
        assert !RoundTrips(text, |text|);
      }
    }
  }

  // ----- positions and lines -----

  /** The line starts of a text before offset `n`. */
  function StartSet(text: Text, n: nat): set<nat>
    requires n <= |text| + 1
  {
    set o: nat | o < n && IsLineStart(text, o)
  }

  lemma {:induction false} StartsCount(text: Text, n: nat)
    requires n <= |text| + 1
    ensures |Starts(text, n)| == |StartSet(text, n)|
  {
    if n == 0 {
      assert StartSet(text, 0) == {};
    } else {
      StartsCount(text, n - 1);
      assert StartSet(text, n) == StartSet(text, n - 1) + if IsLineStart(text, n - 1) then {n - 1} else {};
    }
  }

  lemma {:induction false} StartNumber(text: Text, n: nat, i: nat)
    requires n <= |text| + 1 && i < |Starts(text, n)|
    ensures var o := Starts(text, n)[i]; o < n && IsLineStart(text, o) && |StartSet(text, o)| == i
  {
    assert Starts(text, n)[i] in Starts(text, n);
    if i < |Starts(text, n - 1)| {
      StartNumber(text, n - 1, i);
    } else {
      StartsCount(text, n - 1);
    }
  }

  /** Line number `line` starts at `start`. */
  predicate StartsLine(text: Text, line: nat, start: nat) {
    start <= |text| && IsLineStart(text, start) && |StartSet(text, start)| == line
  }

  /** And it holds `offset`. */
  ghost predicate InLine(text: Text, line: nat, start: nat, offset: nat)
    requires offset <= |text|
  {
    && start <= offset && StartsLine(text, line, start)
    && forall o {:trigger IsLineStart(text, o)} :: start < o <= offset ==> !IsLineStart(text, o)
  }

  /** The position names the line that holds the offset, and how far into it that is. */
  ghost predicate Locates(text: Text, p: Position, offset: nat)
    requires offset <= |text|
  {
    p.character <= offset && InLine(text, p.line, offset - p.character, offset)
  }

  /** A line starts behind the offset. */
  ghost predicate LineFollows(text: Text, offset: nat) {
    exists o :: offset < o <= |text| && IsLineStart(text, o)
  }

  /** A line holds one offset in one way. */
  lemma LocatedOnce(text: Text, p: Position, q: Position, offset: nat)
    requires offset <= |text| && Locates(text, p, offset) && Locates(text, q, offset)
    ensures p == q
  {
  }

  lemma LineOfIndex(text: Text, k: nat, offset: nat)
    requires offset <= |text| && 0 < k <= |LineStarts(text)| && LineStarts(text)[k - 1] <= offset
    requires k < |LineStarts(text)| ==> LineStarts(text)[k] > offset
    ensures InLine(text, k - 1, LineStarts(text)[k - 1], offset)
  {
    var lines := LineStarts(text);
    StartNumber(text, |text| + 1, k - 1);
    forall o | lines[k - 1] < o <= offset
      ensures !IsLineStart(text, o)
    {
      if IsLineStart(text, o) {
        assert o in lines;
        var i :| 0 <= i < |lines| && lines[i] == o;
        assert false;
      }
    }
  }

  lemma FollowsWhen(text: Text, offset: nat)
    ensures LineFollows(text, offset) <==> exists i :: 0 <= i < |LineStarts(text)| && LineStarts(text)[i] > offset
  {
    var lines := LineStarts(text);
    if o: nat :| offset < o <= |text| && IsLineStart(text, o) {
      assert o in lines;
    }
    if i :| 0 <= i < |lines| && lines[i] > offset {
      assert lines[i] in lines;
    }
  }

  /** In a last line without line break a text of several lines has no right answer. */
  lemma LostInLastLine(text: Text, offset: nat)
    requires offset <= |text| && !LineFollows(text, offset) && LineFollows(text, 0)
    ensures !Locates(text, Position(0, 0), offset)
  {
    LastLine(text);
    var o :| 0 < o <= |text| && IsLineStart(text, o);
    assert 0 in StartSet(text, offset) by {
      assert IsLineStart(text, 0) && o <= offset;
    }
  }

  lemma LocatesAtEnd(text: Text)
    requires text != [] && |text| < UINT_MODULUS
    ensures Locates(text, PositionOf(text, |text|), |text|) <==> EndsInBreak(text)
  {
    LastLine(text);
    StartsBound(text, |text| + 1);
    var lines := LineStarts(text);
    if EndsInBreak(text) {
      LineOfIndex(text, |lines|, |text|);
    }
  }

  /** A position locates its offset exactly where another line follows, at the end of a
      text that ends in a line break, and inside the only line of a text. */
  lemma LocatesExactlyWhen(text: Text, offset: nat)
    requires offset <= |text| < UINT_MODULUS
    ensures Locates(text, PositionOf(text, offset), offset) <==>
            || LineFollows(text, offset)
            || (offset == |text| && EndsInBreak(text))
            || (offset < |text| && !LineFollows(text, 0))
  {
    hide ToUint, Locates;
    FollowsWhen(text, offset);
    FollowsWhen(text, 0);
    if text == [] {
      assert !Locates(text, PositionOf(text, 0), 0) by { NowhereInNothing(PositionOf(text, 0)); }
    } else if offset == |text| {
      LocatesAtEnd(text);
    } else {
      LocatesInside(text, offset);
    }
  }

  lemma NowhereInNothing(p: Position)
    ensures !Locates([], p, 0)
  {
  }

  lemma LocatesInside(text: Text, offset: nat)
    requires offset < |text| < UINT_MODULUS
    ensures Locates(text, PositionOf(text, offset), offset) <==> LineFollows(text, offset) || !LineFollows(text, 0)
  {
    LastLine(text);
    FollowsWhen(text, offset);
    FollowsWhen(text, 0);
    var lines := LineStarts(text);
    var k := LinesUpTo(lines, offset);
    if |lines| == 1 || k < |lines| {
      LineOfIndex(text, k, offset);
    } else {
      LostInLastLine(text, offset);
    }
  }

  /** In a text that ends in a line break every position is right. */
  lemma PositionIsExact(text: Text, offset: nat)
    requires offset <= |text| < UINT_MODULUS && EndsInBreak(text)
    ensures Locates(text, PositionOf(text, offset), offset)
  {
    LocatesExactlyWhen(text, offset);
    assert IsLineStart(text, |text|);
  }

  // ----- columns -----

  /** The next line after the one at `start` starts at `next`. */
  ghost predicate NextLine(text: Text, start: nat, next: nat) {
    && start < next <= |text| && IsLineStart(text, next)
    && forall o {:trigger IsLineStart(text, o)} :: start < o < next ==> !IsLineStart(text, o)
  }

  lemma IndexOfLine(text: Text, line: nat, start: nat)
    requires StartsLine(text, line, start)
    ensures line < |LineStarts(text)| && LineStarts(text)[line] == start
  {
    var lines := LineStarts(text);
    assert start in lines;
    var i :| 0 <= i < |lines| && lines[i] == start;
    StartNumber(text, |text| + 1, i);
  }

  lemma IndexOfNext(text: Text, line: nat, start: nat)
    requires StartsLine(text, line, start)
    ensures forall next: nat :: NextLine(text, start, next) ==>
              line + 1 < |LineStarts(text)| && LineStarts(text)[line + 1] == next
    ensures !LineFollows(text, start) ==> |LineStarts(text)| == line + 1
  {
    var lines := LineStarts(text);
    IndexOfLine(text, line, start);
    FollowsWhen(text, start);
    if line + 1 < |lines| {
      assert lines[line + 1] > start;
    }
    forall next: nat | NextLine(text, start, next)
      ensures line + 1 < |lines| && lines[line + 1] == next
    {
      assert next in lines;
      var i :| 0 <= i < |lines| && lines[i] == next;
      assert lines[line + 1] in lines;
    }
  }

  /** What a file answers in a line that another one follows: a column behind the line,
      its break included, means the start of the next line, and one that wraps around
      means the start of its own. */
  lemma ColumnsAreClipped(text: Text, p: Position, start: nat, next: nat)
    requires |text| < UINT_MODULUS && p.character < UINT_MODULUS
    requires StartsLine(text, p.line, start) && NextLine(text, start, next)
    ensures OffsetOf(LineStarts(text), |text|, p) ==
              if start + p.character <= next then start + p.character
              else if start + p.character < UINT_MODULUS then next else start
  {
    IndexOfLine(text, p.line, start);
    IndexOfNext(text, p.line, start);
  }

  /** In the last line the bound is the number of lines, not a place in the text, and a
      line that is not there means the end of the text. */
  lemma LastColumnsAreClipped(text: Text, p: Position, start: nat)
    requires |text| < UINT_MODULUS && start + p.character < UINT_MODULUS
    ensures StartsLine(text, p.line, start) && !LineFollows(text, start) ==>
              OffsetOf(LineStarts(text), |text|, p) ==
              if start + p.character <= p.line + 1 then start + p.character
              else if start <= p.line + 1 then p.line + 1 else start
    ensures p.line >= |StartSet(text, |text| + 1)| ==> OffsetOf(LineStarts(text), |text|, p) == |text|
  {
    StartsCount(text, |text| + 1);
    if StartsLine(text, p.line, start) {
      IndexOfLine(text, p.line, start);
      IndexOfNext(text, p.line, start);
    }
  }

  // ----- what a line is -----

  /** A first line and its break: the text has the starts of the rest, its own, and the
      place behind the break. */
  lemma FirstLine(line: Text, break_: Text, rest: Text, o: nat)
    requires '\r' !in line && '\n' !in line && break_ in {"\n", "\r", "\r\n"}
    requires break_ == "\r" ==> rest == "" || rest[0] != '\n'
    requires o <= |line + break_ + rest|
    ensures var n := |line| + |break_|;
      IsLineStart(line + break_ + rest, o) <==> o == 0 || o == n || (o > n && IsLineStart(rest, o - n))
  {
    var text, n := line + break_ + rest, |line| + |break_|;
    if 0 < o < |line| + 1 {
      assert text[o - 1] == line[o - 1];
    } else if o == n {
      assert text[n - 1] == break_[|break_| - 1];
      assert n < |text| ==> text[n] == rest[0];
    } else if o > n {
      assert text[o - 1] == rest[o - n - 1];
      assert o < |text| ==> text[o] == rest[o - n];
    }
  }

  /** A text without a break is one line. */
  lemma OnlyLine(line: Text, o: nat)
    requires '\r' !in line && '\n' !in line && line != "" && o <= |line|
    ensures IsLineStart(line, o) <==> o == 0
  {
  }
}
