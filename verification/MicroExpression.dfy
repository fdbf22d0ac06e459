/** The expression scanner of the Angular microsyntax. */
module MicroExpression {
  import opened Texts

  // ----- characters -----

  predicate IsLetter(c: char) {
    'a' <= c <= 'z' || 'A' <= c <= 'Z'
  }

  predicate IsNumber(c: char) {
    '0' <= c <= '9'
  }

  predicate IsJsIdentifierChar(c: char) {
    IsLetter(c) || IsNumber(c) || c == '_' || c == '$'
  }

  /** Quotes count as opening brackets. */
  predicate IsOpenParen(c: char) {
    c in "([{\'\""
  }

  function SwitchBracket(c: char): char {
    match c
    case '(' => ')'
    case '[' => ']'
    case '{' => '}'
    case '\'' => '\''
    case '\"' => '\"'
    case _ => ' '
  }

  /** `isOperator` outside all brackets; the scanner asks nowhere else. */
  predicate IsOperator(c: char) {
    c in ":$&*+-./<=>?^|!"
  }

  // ----- scanning -----

  /** `Panic` is a read past either end of the text. */
  datatype Scan = Panic | At(index: nat)

  /** One step of the bracket stack, whichever character comes. */
  function Fold(stack: seq<char>, c: char): seq<char> {
    if IsOpenParen(c) then stack + [SwitchBracket(c)]
    else if stack != [] && stack[|stack| - 1] == c then stack[..|stack| - 1]
    else stack
  }

  function FoldAll(stack: seq<char>, s: Text): seq<char>
    decreases |s|
  {
    if s == "" then stack else FoldAll(Fold(stack, s[0]), s[1..])
  }

  /** The first index from `i` on that holds no blank. */
  function SkipBlanks(s: Text, i: nat): (r: nat)
    requires i <= |s|
    ensures i <= r <= |s| && (forall k :: i <= k < r ==> s[k] == ' ') && (r < |s| ==> s[r] != ' ')
    decreases |s| - i
  {
    if i < |s| && s[i] == ' ' then SkipBlanks(s, i + 1) else i
  }

  /** Outside brackets, at blank `i`: where the scan goes on, or None where the
      expression ends. */
  datatype Ahead = Break | Continue(index: nat) | PanicAhead

  function LookAhead(s: Text, i: nat): (r: Ahead)
    requires i < |s| && s[i] == ' '
    ensures r.Continue? ==> i < r.index <= |s|
  {
    if i == |s| - 1 then Break
    else if i == 0 then PanicAhead
    else
      var next := SkipBlanks(s, i + 1);
      if next == |s| then PanicAhead
      else if !IsOperator(s[i - 1]) && IsJsIdentifierChar(s[next]) then Break
      else if IsOperator(s[next]) then
        var after := SkipBlanks(s, next + 1);
        if after == |s| then PanicAhead else Continue(after)
      else Continue(next)
  }

  /** `ParseExpression` from index `i` with the given stack. */
  function ScanFrom(s: Text, i: nat, stack: seq<char>): (r: Scan)
    requires i <= |s|
    ensures r.At? ==> i <= r.index <= |s|
    decreases |s| - i
  {
    if i == |s| then At(i)
    else
      var c := s[i];
      if stack == [] && !IsOpenParen(c) then
        if !IsOperator(c) && !IsJsIdentifierChar(c) && c != ' ' then At(i)
        else if c != ' ' then ScanFrom(s, i + 1, stack)
        else
          match LookAhead(s, i)
          case Break => At(i)
          case PanicAhead => Panic
          case Continue(k) => ScanFrom(s, k, stack)
      else ScanFrom(s, i + 1, Fold(stack, c))
  }

  /** The part of `ParseExpression` that looks past a blank outside brackets. */
  method ParseAhead(runeText: Text, start: nat) returns (r: Ahead)
    requires start < |runeText| && runeText[start] == ' '
    ensures r == LookAhead(runeText, start)
  {
    var i := start;
    if i == |runeText| - 1 {
      return Break;
    }
    if i == 0 {
      return PanicAhead;
    }
    var prev := runeText[i - 1];
    var next := runeText[i + 1];
    var j := i;
    while next == ' '
      invariant i <= j < |runeText| - 1 && next == runeText[j + 1]
      invariant SkipBlanks(runeText, i + 1) == SkipBlanks(runeText, j + 1)
      decreases |runeText| - j
    {
      j := j + 1;
      if j + 1 >= |runeText| {
        return PanicAhead;
      }
      next := runeText[j + 1];
    }
    if !IsOperator(prev) && IsJsIdentifierChar(next) {
      return Break;
    }
    i := j + 1;
    if IsOperator(runeText[i]) {
      i := i + 1;
      ghost var first := i;
      while true
        invariant first <= i <= |runeText| && SkipBlanks(runeText, first) == SkipBlanks(runeText, i)
        decreases |runeText| - i
      {
        if i >= |runeText| {
          return PanicAhead;
        }
        if runeText[i] != ' ' {
          break;
        }
        i := i + 1;
      }
    }
    return Continue(i);
  }

  method ParseExpression(startIndex: nat, runeText: Text) returns (r: Scan)
    requires startIndex <= |runeText|
    ensures r == ScanFrom(runeText, startIndex, [])
  {
    hide LookAhead, IsOperator, IsJsIdentifierChar;
    var i := startIndex;
    var parenStack: seq<char> := [];
    while i < |runeText|
      invariant i <= |runeText| && ScanFrom(runeText, startIndex, []) == ScanFrom(runeText, i, parenStack)
      decreases |runeText| - i
    {
      var c := runeText[i];
      if parenStack == [] {
        if IsOpenParen(c) {
          parenStack := parenStack + [SwitchBracket(c)];
          i := i + 1;
          continue;
        }
        if !IsOperator(c) && !IsJsIdentifierChar(c) && c != ' ' {
          break;
        }
        if c != ' ' {
          i := i + 1;
          continue;
        }
        var ahead := ParseAhead(runeText, i);
        match ahead {
          case Break => break;
          case PanicAhead => return Panic;
          case Continue(index) => i := index;
        }
        continue;
      }
      if IsOpenParen(c) {
        parenStack := parenStack + [SwitchBracket(c)];
        i := i + 1;
        continue;
      }
      if parenStack[|parenStack| - 1] == c {
        parenStack := parenStack[..|parenStack| - 1];
        i := i + 1;
        continue;
      }
      i := i + 1;
    }
    return At(i);
  }

  // ----- bracket discipline -----

  lemma {:induction false} FoldTwo(stack: seq<char>, a: Text, b: Text)
    ensures FoldAll(stack, a + b) == FoldAll(FoldAll(stack, a), b)
    decreases |a|
  {
    if a == "" {
      assert a + b == b;
    } else {
      assert (a + b)[0] == a[0] && (a + b)[1..] == a[1..] + b;
      FoldTwo(Fold(stack, a[0]), a[1..], b);
    }
  }

  /** What the look-ahead skips: blanks, at most one operator, and no bracket. */
  lemma {:induction false} FoldPlain(t: Text)
    requires forall c <- t :: !IsOpenParen(c)
    ensures FoldAll([], t) == []
    decreases |t|
  {
    if t != "" {
      FoldPlain(t[1..]);
    }
  }

  lemma SkippedIsPlain(s: Text, i: nat)
    requires i < |s| && s[i] == ' ' && LookAhead(s, i).Continue?
    ensures FoldAll([], s[i..LookAhead(s, i).index]) == []
  {
    var t := s[i..LookAhead(s, i).index];
    var next := SkipBlanks(s, i + 1);
    forall c | c in t
      ensures !IsOpenParen(c)
    {
      var k :| i <= k < i + |t| && s[k] == c;
    }
    FoldPlain(t);
  }

  /** Bracket discipline: an expression that ends before the text does is balanced,
      whatever closing brackets it ignored on the way. */
  lemma {:induction false} BracketDiscipline(s: Text, i: nat, stack: seq<char>)
    requires i <= |s| && ScanFrom(s, i, stack).At? && ScanFrom(s, i, stack).index < |s|
    ensures FoldAll(stack, s[i..ScanFrom(s, i, stack).index]) == []
    decreases |s| - i
  {
    var r := ScanFrom(s, i, stack).index;
    if r != i {
      var c := s[i];
      if stack == [] && c == ' ' {
        var k := LookAhead(s, i).index;
        SkippedIsPlain(s, i);
        BracketDiscipline(s, k, stack);
        assert s[i..r] == s[i..k] + s[k..r];
        FoldTwo([], s[i..k], s[k..r]);
      } else {
        BracketDiscipline(s, i + 1, Fold(stack, c));
        assert s[i..r] == [c] + s[i + 1..r];
      }
    }
  }

  predicate IsQuote(c: char) {
    c == '\'' || c == '\"'
  }

  /** A quote on the stack is never popped: as an opening bracket it is pushed again. */
  lemma {:induction false} QuoteStays(s: Text, i: nat, stack: seq<char>)
    requires i <= |s| && exists q <- stack :: IsQuote(q)
    ensures ScanFrom(s, i, stack) == At(|s|)
    decreases |s| - i
  {
    if i < |s| {
      var c := s[i];
      var q :| q in stack && IsQuote(q);
      var next := Fold(stack, c);
      assert q in next by {
        if !IsOpenParen(c) && stack[|stack| - 1] == c {
          assert stack == next + [c];
        }
      }
      QuoteStays(s, i + 1, next);
    }
  }

  /** The look-ahead passes no quote. */
  lemma LookAheadStops(s: Text, i: nat, k: nat)
    requires i < k < |s| && s[i] == ' ' && LookAhead(s, i).Continue? && IsQuote(s[k])
    ensures LookAhead(s, i).index <= k
  {
    var next := SkipBlanks(s, i + 1);
    assert next <= k;
    assert IsOperator(s[next]) ==> !IsQuote(s[next]);
  }

  /** An expression with a quote in it runs to the end of the text. */
  lemma {:induction false} QuoteRunsToEnd(s: Text, i: nat, k: nat, stack: seq<char>)
    requires i <= k < |s| && IsQuote(s[k]) && ScanFrom(s, i, stack).At? && k < ScanFrom(s, i, stack).index
    ensures ScanFrom(s, i, stack) == At(|s|)
    decreases |s| - i
  {
    var c := s[i];
    if i == k {
      assert SwitchBracket(c) in Fold(stack, c);
      QuoteStays(s, i + 1, Fold(stack, c));
    } else if stack == [] && c == ' ' {
      var j := LookAhead(s, i).index;
      LookAheadStops(s, i, k);
      QuoteRunsToEnd(s, j, k, stack);
    } else {
      QuoteRunsToEnd(s, i + 1, k, Fold(stack, c));
    }
  }
}
