/** A grammar of expressions that knows nothing of the scanner, and what the scanner makes
    of them. */
module MicroGrammar {
  import opened Options
  import opened Texts
  import opened MicroExpression
  import opened Microsyntax
  import opened MicroRoundTrip

  // ----- the alphabets -----

  const LOWER: set<char> :=
    {'a', 'b', 'c', 'd', 'e', 'f', 'g', 'h', 'i', 'j', 'k', 'l', 'm', 'n', 'o', 'p', 'q', 'r', 's', 't', 'u', 'v', 'w',
     'x', 'y', 'z'}
  const UPPER: set<char> :=
    {'A', 'B', 'C', 'D', 'E', 'F', 'G', 'H', 'I', 'J', 'K', 'L', 'M', 'N', 'O', 'P', 'Q', 'R', 'S', 'T', 'U', 'V', 'W',
     'X', 'Y', 'Z'}
  const DIGITS: set<char> := {'0', '1', '2', '3', '4', '5', '6', '7', '8', '9'}
  const OPERATORS: set<char> :=
    {':', '$', '&', '*', '+', '-', '.', '/', '<', '=', '>', '?', '^', '|', '!'}

  predicate IsNameChar(c: char) {
    c in LOWER || c in UPPER || c in DIGITS || c == '_' || c == '$'
  }

  /** Brackets that the scanner looks for: parentheses, square and curly ones, and quotes. */
  predicate IsBracketChar(c: char) {
    c in "()[]{}'\""
  }

  /** An identifier or a number.  At its end a dollar sign would count as an operator. */
  predicate IsName(w: Text) {
    w != "" && w[|w| - 1] != '$' && forall c <- w :: IsNameChar(c)
  }

  lemma LettersAreLetters(c: char)
    ensures c in LOWER || c in UPPER <==> IsLetter(c)
    ensures c in DIGITS <==> IsNumber(c)
  {
  }

  lemma NameChars(c: char)
    ensures IsNameChar(c) <==> IsJsIdentifierChar(c)
    ensures IsNameChar(c) ==> !IsOpenParen(c) && c != ' ' && (IsOperator(c) ==> c == '$')
  {
    LettersAreLetters(c);
  }

  lemma OperatorChars(c: char)
    ensures c in OPERATORS <==> IsOperator(c)
    ensures IsOperator(c) ==> !IsOpenParen(c) && c != ' ' && (IsJsIdentifierChar(c) ==> c == '$')
  {
  }

  /** The characters of a name: a dollar sign in a name of JavaScript, a dash in one of
      HTML. */
  predicate Belongs(c: char, js: bool) {
    c in LOWER || c in UPPER || c in DIGITS || c == '_' || (js && c == '$') || (!js && c == '-')
  }

  lemma BelongsExactly(c: char, js: bool)
    ensures Belongs(c, js) <==> IsIdentifierChar(c, js)
    ensures c in DIGITS <==> IsNumber(c)
  {
    LettersAreLetters(c);
  }

  /** An identifier is the longest run of the characters of a name, and begins with none of
      the digits. */
  lemma IdentifierExactly(s: Text, i: nat, js: bool)
    requires i < |s|
    ensures Identifier(s, i, js) == Bad <==> !Belongs(s[i], js) || s[i] in DIGITS
    ensures forall k: nat :: Identifier(s, i, js) == Took(k) <==>
              && s[i] !in DIGITS && i < k <= |s| && (forall j :: i <= j < k ==> Belongs(s[j], js))
              && (k < |s| ==> !Belongs(s[k], js))
  {
    forall c
      ensures (Belongs(c, js) <==> IsIdentifierChar(c, js)) && (c in DIGITS <==> IsNumber(c))
    {
      BelongsExactly(c, js);
    }
    forall k: nat | i < k <= |s| && (forall j :: i <= j < k ==> Belongs(s[j], js)) && (k < |s| ==> !Belongs(s[k], js))
      ensures IdentifierEnd(s, i + 1, js) == k
    {
    }
  }

  // ----- the grammar -----

  /** What stands between brackets: anything but brackets and quotes, and brackets that
      are closed again. */
  datatype Body = End | Plain(c: char, rest: Body) | Nest(bracket: char, inner: Body, rest: Body)

  /** Names and numbers, brackets, calls and subscripts, an operator in front, and operators
      between, with blanks around them or not: paths, chains, comparisons, pipes. */
  datatype Phrase =
    | Name(word: Text)
    | Bracketed(bracket: char, body: Body)
    | Applied(phrase: Phrase, bracket: char, body: Body)
    | Prefixed(sign: char, phrase: Phrase)
    | Joined(left: Phrase, before: nat, op: Text, after: nat, right: Phrase)

  function Closer(bracket: char): char {
    if bracket == '(' then ')' else if bracket == '[' then ']' else '}'
  }

  function BodyText(b: Body): Text {
    match b
    case End => ""
    case Plain(c, rest) => [c] + BodyText(rest)
    case Nest(bracket, inner, rest) => [bracket] + (BodyText(inner) + ([Closer(bracket)] + BodyText(rest)))
  }

  function Spaces(n: nat): Text {
    seq(n, _ => ' ')
  }

  function PhraseText(ph: Phrase): Text {
    match ph
    case Name(word) => word
    case Bracketed(bracket, body) => BodyText(Nest(bracket, body, End))
    case Applied(phrase, bracket, body) => PhraseText(phrase) + BodyText(Nest(bracket, body, End))
    case Prefixed(op, phrase) => [op] + PhraseText(phrase)
    case Joined(left, before, op, after, right) =>
      PhraseText(left) + (Spaces(before) + (op + (Spaces(after) + PhraseText(right))))
  }

  predicate BodyFits(b: Body) {
    match b
    case End => true
    case Plain(c, rest) => !IsBracketChar(c) && BodyFits(rest)
    case Nest(bracket, inner, rest) => bracket in {'(', '[', '{'} && BodyFits(inner) && BodyFits(rest)
  }

  /** Behind a blank, a dollar sign begins an identifier. */
  predicate Fits(ph: Phrase) {
    match ph
    case Name(word) => IsName(word)
    case Bracketed(bracket, body) => BodyFits(Nest(bracket, body, End))
    case Applied(phrase, bracket, body) => Fits(phrase) && BodyFits(Nest(bracket, body, End))
    case Prefixed(op, phrase) => op in OPERATORS && Fits(phrase)
    case Joined(left, before, op, after, right) =>
      && Fits(left) && Fits(right) && op != "" && (forall c <- op :: c in OPERATORS)
      && (before > 0 ==> op[0] != '$')
  }

  // ----- brackets are taken whole -----

  lemma OpenStep(s: Text, p: nat, bracket: char, stack: seq<char>)
    requires p < |s| && s[p] == bracket && bracket in {'(', '[', '{'}
    ensures ScanFrom(s, p, stack) == ScanFrom(s, p + 1, stack + [Closer(bracket)])
  {
    hide LookAhead, IsOperator, IsJsIdentifierChar;
  }

  lemma CloseStep(s: Text, p: nat, bracket: char, stack: seq<char>)
    requires p < |s| && s[p] == Closer(bracket) && bracket in {'(', '[', '{'}
    ensures ScanFrom(s, p, stack + [Closer(bracket)]) == ScanFrom(s, p + 1, stack)
  {
    hide LookAhead, IsOperator, IsJsIdentifierChar;
    assert (stack + [Closer(bracket)])[..|stack|] == stack;
  }

  lemma PlainStep(s: Text, p: nat, stack: seq<char>)
    requires p < |s| && !IsBracketChar(s[p]) && stack != [] && stack[|stack| - 1] in {')', ']', '}'}
    ensures ScanFrom(s, p, stack) == ScanFrom(s, p + 1, stack)
  {
    hide LookAhead, IsOperator, IsJsIdentifierChar;
  }

  /** A bracket, what is in it, its end, and the rest, in their places. */
  /** The pieces of a bracket in their places. */
  lemma FourAt(s: Text, p: nat, a: Text, b: Text, c: Text, d: Text)
    requires HasAt(s, p, a + (b + (c + d))) && |a| == |c| == 1
    ensures var n := |b|;
      && p + n + 2 + |d| <= |s| && s[p] == a[0] && HasAt(s, p + 1, b)
      && s[p + 1 + n] == c[0] && HasAt(s, p + 2 + n, d)
  {
    hide HasAt;
    HasBoth(s, p, a, b + (c + d));
    HasBoth(s, p + 1, b, c + d);
    HasBoth(s, p + 1 + |b|, c, d);
    LastChar(s, p, a);
    LastChar(s, p + 1 + |b|, c);
    Inside(s, p + 2 + |b|, d);
  }

  lemma Inside(s: Text, p: nat, t: Text)
    requires HasAt(s, p, t)
    ensures p + |t| <= |s|
  {
  }

  lemma NestAt(s: Text, p: nat, bracket: char, inner: Body, rest: Body)
    requires HasAt(s, p, BodyText(Nest(bracket, inner, rest)))
    ensures var n := |BodyText(inner)|;
      && p + n + 2 + |BodyText(rest)| <= |s| && s[p] == bracket && HasAt(s, p + 1, BodyText(inner))
      && s[p + 1 + n] == Closer(bracket) && HasAt(s, p + 2 + n, BodyText(rest))
  {
    FourAt(s, p, [bracket], BodyText(inner), [Closer(bracket)], BodyText(rest));
  }

  lemma {:induction false} BodyPasses(s: Text, p: nat, b: Body, stack: seq<char>)
    requires BodyFits(b) && HasAt(s, p, BodyText(b)) && stack != [] && stack[|stack| - 1] in {')', ']', '}'}
    ensures p + |BodyText(b)| <= |s| && ScanFrom(s, p, stack) == ScanFrom(s, p + |BodyText(b)|, stack)
    decreases b
  {
    hide ScanFrom, Fold, HasAt;
    match b
    case End => assert p <= |s| by { HasNothing(s, p); }
    case Plain(c, rest) =>
      HasBoth(s, p, [c], BodyText(rest));
      HasAtChar(s, p, [c], 0);
      PlainStep(s, p, stack);
      BodyPasses(s, p + 1, rest, stack);
    case Nest(bracket, inner, rest) =>
      NestAt(s, p, bracket, inner, rest);
      OpenStep(s, p, bracket, stack);
      BodyPasses(s, p + 1, inner, stack + [Closer(bracket)]);
      CloseStep(s, p + 1 + |BodyText(inner)|, bracket, stack);
      BodyPasses(s, p + 2 + |BodyText(inner)|, rest, stack);
  }

  lemma HasNothing(s: Text, p: nat)
    requires HasAt(s, p, "")
    ensures p <= |s|
  {
  }

  lemma NestPasses(s: Text, p: nat, bracket: char, body: Body)
    requires var b := Nest(bracket, body, End); BodyFits(b) && HasAt(s, p, BodyText(b))
    ensures var b := Nest(bracket, body, End);
      p + |BodyText(b)| <= |s| && ScanFrom(s, p, []) == ScanFrom(s, p + |BodyText(b)|, [])
  {
    hide ScanFrom, HasAt;
    NestAt(s, p, bracket, body, End);
    OpenStep(s, p, bracket, []);
    BodyPasses(s, p + 1, body, [] + [Closer(bracket)]);
    CloseStep(s, p + 1 + |BodyText(body)|, bracket, []);
  }

  // ----- blanks around operators -----

  /** The scan goes on behind blanks, after an operator or in front of something that does
      not begin an identifier, as long as more than operators and blanks follow. */
  lemma {:induction false} BlankPasses(s: Text, i: nat, n: nat, m: nat)
    requires 0 < i < n <= m < |s| && (forall k :: i <= k < n ==> s[k] == ' ') && s[n] != ' '
    requires IsOperator(s[i - 1]) || !IsJsIdentifierChar(s[n])
    requires s[m] != ' ' && !IsOperator(s[m])
    ensures ScanFrom(s, i, []) == ScanFrom(s, n, [])
    decreases m - i
  {
    hide IsOperator, IsJsIdentifierChar, SkipBlanks;
    BlanksAt(s, i + 1, n);
    BlankScan(s, i);
    if IsOperator(s[n]) {
      OperatorChars(s[n]);
      var after := SkipBlanks(s, n + 1);
      assert after <= m;
      if after > n + 1 {
        BlankPasses(s, n + 1, after, m);
      }
    }
  }

  lemma {:induction false} WordPasses(s: Text, p: nat, w: Text)
    requires HasAt(s, p, w) && forall c <- w :: IsNameChar(c) || c in OPERATORS
    ensures p + |w| <= |s| && ScanFrom(s, p, []) == ScanFrom(s, p + |w|, [])
    decreases |w|
  {
    if w != "" {
      hide IsOperator, IsJsIdentifierChar, LookAhead;
      assert w == [w[0]] + w[1..];
      HasBoth(s, p, [w[0]], w[1..]);
      HasAtChar(s, p, w, 0);
      NameChars(w[0]);
      OperatorChars(w[0]);
      WordPasses(s, p + 1, w[1..]);
    }
  }

  // ----- phrases are taken whole -----

  /** A phrase neither begins nor ends with a blank, and does not end in an operator. */
  lemma {:induction false} PhraseEnds(ph: Phrase)
    requires Fits(ph)
    ensures var t := PhraseText(ph);
      && t != "" && t[0] != ' ' && t[|t| - 1] != ' ' && !IsOperator(t[|t| - 1])
  {
    hide IsOperator, BodyText, BodyFits, IsName, Spaces;
    match ph
    case Name(word) => NameEndsWell(word);
    case Bracketed(bracket, body) => NestEnds(bracket, body);
    case Applied(phrase, bracket, body) =>
      PhraseEnds(phrase);
      NestEnds(bracket, body);
    case Prefixed(op, phrase) =>
      PhraseEnds(phrase);
      OperatorChars(op);
    case Joined(left, before, op, after, right) =>
      PhraseEnds(left);
      PhraseEnds(right);
      FiveEnd(PhraseText(left), Spaces(before), op, Spaces(after), PhraseText(right));
  }

  lemma NameEndsWell(word: Text)
    requires IsName(word)
    ensures word != "" && word[0] != ' ' && word[|word| - 1] != ' ' && !IsOperator(word[|word| - 1])
  {
    assert word[0] in word && word[|word| - 1] in word;
    NameChars(word[0]);
    NameChars(word[|word| - 1]);
  }

  lemma FiveEnd(a: Text, b: Text, c: Text, d: Text, e: Text)
    requires a != "" && e != ""
    ensures var t := a + (b + (c + (d + e))); t != "" && t[0] == a[0] && t[|t| - 1] == e[|e| - 1]
  {
  }

  lemma NestEnds(bracket: char, body: Body)
    requires BodyFits(Nest(bracket, body, End))
    ensures var t := BodyText(Nest(bracket, body, End));
      |t| >= 2 && t[0] == bracket != ' ' && t[|t| - 1] == Closer(bracket) != ' ' && !IsOperator(t[|t| - 1])
  {
  }

  /** The pieces of a joined phrase in their places. */
  lemma FiveAt(s: Text, p: nat, a: Text, b: Text, c: Text, d: Text, e: Text)
    requires HasAt(s, p, a + (b + (c + (d + e))))
    ensures var l := p + |a|;
            var o := l + |b|;
            var f := o + |c|;
            var r := f + |d|;
      HasAt(s, p, a) && HasAt(s, l, b) && HasAt(s, o, c) && HasAt(s, f, d) && HasAt(s, r, e) && r + |e| <= |s|
  {
    HasBoth(s, p, a, b + (c + (d + e)));
    HasBoth(s, p + |a|, b, c + (d + e));
    HasBoth(s, p + |a| + |b|, c, d + e);
    HasBoth(s, p + |a| + |b| + |c|, d, e);
  }

  lemma SpacesAt(s: Text, p: nat, n: nat)
    requires HasAt(s, p, Spaces(n))
    ensures p + n <= |s| && forall k :: p <= k < p + n ==> s[k] == ' '
  {
    forall k | p <= k < p + n
      ensures k < |s| && s[k] == ' '
    {
      HasAtChar(s, p, Spaces(n), k - p);
    }
  }

  /** From the end of one operand, over blanks and operators, to the next operand. */
  lemma OperatorPasses(s: Text, l: nat, b: nat, op: Text, r: nat, m: nat)
    requires 0 < l <= b && b + |op| <= r <= m < |s| && HasAt(s, b, op) && op != ""
    requires (forall k :: l <= k < b ==> s[k] == ' ') && (forall k :: b + |op| <= k < r ==> s[k] == ' ')
    requires (forall c <- op :: c in OPERATORS) && (l < b ==> op[0] != '$')
    requires s[r] != ' ' && s[m] != ' ' && !IsOperator(s[m])
    ensures ScanFrom(s, l, []) == ScanFrom(s, r, [])
  {
    hide ScanFrom, HasAt, IsOperator, IsJsIdentifierChar;
    LastChar(s, b, op);
    assert op[0] in op && op[|op| - 1] in op;
    OperatorChars(op[0]);
    OperatorChars(op[|op| - 1]);
    if l < b {
      BlankPasses(s, l, b, m);
    }
    WordPasses(s, b, op);
    if b + |op| < r {
      BlankPasses(s, b + |op|, r, m);
    }
  }

  lemma JoinedPasses(s: Text, p: nat, a: Text, before: nat, op: Text, after: nat, e: Text)
    requires HasAt(s, p, a + (Spaces(before) + (op + (Spaces(after) + e)))) && a != "" && e != ""
    requires op != "" && (forall c <- op :: c in OPERATORS) && (before > 0 ==> op[0] != '$')
    requires e[0] != ' ' && e[|e| - 1] != ' ' && !IsOperator(e[|e| - 1])
    ensures var l := p + |a|;
            var r := l + before + |op| + after;
      l <= r <= |s| && ScanFrom(s, l, []) == ScanFrom(s, r, []) && HasAt(s, p, a) && HasAt(s, r, e)
  {
    hide ScanFrom, HasAt, IsOperator, IsJsIdentifierChar, Spaces;
    var l := p + |a|;
    var b := l + before;
    var r := b + |op| + after;
    assert |Spaces(before)| == before && |Spaces(after)| == after by { SpacesLength(before); SpacesLength(after); }
    FiveAt(s, p, a, Spaces(before), op, Spaces(after), e);
    LastChar(s, r, e);
    SpacesAt(s, l, before);
    SpacesAt(s, b + |op|, after);
    OperatorPasses(s, l, b, op, r, r + |e| - 1);
  }

  lemma SpacesLength(n: nat)
    ensures |Spaces(n)| == n
  {
  }

  /** Wherever an ordinary phrase stands, the scan takes it whole. */
  lemma {:induction false} PhrasePasses(s: Text, p: nat, ph: Phrase)
    requires Fits(ph) && HasAt(s, p, PhraseText(ph))
    ensures p + |PhraseText(ph)| <= |s| && ScanFrom(s, p, []) == ScanFrom(s, p + |PhraseText(ph)|, [])
    decreases ph
  {
    hide ScanFrom, HasAt, IsOperator, IsJsIdentifierChar, BodyText;
    match ph
    case Name(word) => WordPasses(s, p, word);
    case Bracketed(bracket, body) => NestPasses(s, p, bracket, body);
    case Applied(phrase, bracket, body) =>
      HasBoth(s, p, PhraseText(phrase), BodyText(Nest(bracket, body, End)));
      PhrasePasses(s, p, phrase);
      NestPasses(s, p + |PhraseText(phrase)|, bracket, body);
    case Prefixed(op, phrase) =>
      HasBoth(s, p, [op], PhraseText(phrase));
      WordPasses(s, p, [op]);
      PhrasePasses(s, p + 1, phrase);
    case Joined(left, before, op, after, right) =>
      PhraseEnds(left);
      PhraseEnds(right);
      JoinedPasses(s, p, PhraseText(left), before, op, after, PhraseText(right));
      PhrasePasses(s, p, left);
      PhrasePasses(s, p + |PhraseText(left)| + before + |op| + after, right);
  }

  // ----- where an expression ends -----

  /** A character that neither continues an expression nor is a blank. */
  predicate IsOther(c: char) {
    !IsNameChar(c) && c !in OPERATORS && c != ' ' && c !in "([{'\""
  }

  lemma OtherEnds(s: Text, i: nat)
    requires i < |s| && IsOther(s[i])
    ensures ScanFrom(s, i, []) == At(i) && !IsJsIdentifierChar(s[i]) && !IsOperator(s[i])
  {
    NameChars(s[i]);
    OperatorChars(s[i]);
    hide IsJsIdentifierChar, IsOperator, LookAhead;
  }

  lemma TailAt(t: Text, tail: Text)
    ensures HasAt(t + tail, 0, t) && forall k :: 0 <= k < |tail| ==> (t + tail)[|t| + k] == tail[k]
  {
  }

  /** Where the scan of a phrase ends, by what comes behind it: with the text; in front of
      any character that does not continue an expression; in front of a last blank, and of
      blanks before an identifier; behind blanks before any other character.  Two blanks or
      more at the end of the text are read past. */
  lemma PhraseEndsExactly(ph: Phrase, n: nat, rest: Text)
    requires Fits(ph) && (rest != "" ==> rest[0] != ' ')
    ensures var k := |PhraseText(ph)|;
            var r := ScanFrom(PhraseText(ph) + (Spaces(n) + rest), 0, []);
      && (n <= 1 && rest == "" ==> r == At(k)) && (n >= 2 && rest == "" ==> r == Panic)
      && (rest != "" && IsOther(rest[0]) ==> r == At(k + n))
      && (n > 0 && rest != "" && IsNameChar(rest[0]) ==> r == At(k))
  {
    var t, tail := PhraseText(ph), Spaces(n) + rest;
    var s := t + tail;
    hide ScanFrom, HasAt, IsJsIdentifierChar, IsOperator, PhraseText;
    PhraseEnds(ph);
    TailAt(t, tail);
    PhrasePasses(s, 0, ph);
    if n == 0 {
      if rest == "" { EndOfText(s); } else if IsOther(rest[0]) { OtherEnds(s, |t|); }
    } else {
      BlanksEnd(s, |t|, |t| + n);
    }
  }

  lemma EndOfText(s: Text)
    ensures ScanFrom(s, |s|, []) == At(|s|)
  {
  }

  /** Blanks from `k` to `e`, behind something that is no operator. */
  lemma BlanksEnd(s: Text, k: nat, e: nat)
    requires 0 < k < e <= |s| && (forall i :: k <= i < e ==> s[i] == ' ') && (e < |s| ==> s[e] != ' ')
    requires !IsOperator(s[k - 1])
    ensures e == |s| ==> ScanFrom(s, k, []) == if e == k + 1 then At(k) else Panic
    ensures e < |s| && IsNameChar(s[e]) ==> ScanFrom(s, k, []) == At(k)
    ensures e < |s| && IsOther(s[e]) ==> ScanFrom(s, k, []) == At(e)
  {
    hide IsJsIdentifierChar, IsOperator;
    BlankScan(s, k);
    BlanksAt(s, k + 1, e);
    if e < |s| {
      NameChars(s[e]);
      if IsOther(s[e]) {
        OtherEnds(s, e);
      }
    }
  }

  /** Behind a blank a dollar sign does not join: it begins the next word. */
  lemma DollarBegins(ph: Phrase, n: nat, rest: Text)
    requires Fits(ph) && n > 0
    ensures ScanFrom(PhraseText(ph) + (Spaces(n) + ("$" + rest)), 0, []) == At(|PhraseText(ph)|)
  {
    PhraseEndsExactly(ph, n, "$" + rest);
  }

  /** Two identifiers and any operator character between them, with blanks or without: the
      scan takes all of it, unless a dollar sign stands behind a blank. */
  lemma OperatorJoins(x: Text, before: nat, c: char, after: nat, y: Text)
    requires IsName(x) && IsName(y) && c in OPERATORS
    ensures var t := x + (Spaces(before) + ([c] + (Spaces(after) + y)));
      ScanFrom(t, 0, []) == At(if before > 0 && c == '$' then |x| else |t|)
  {
    if before > 0 && c == '$' {
      DollarBegins(Name(x), before, Spaces(after) + y);
    } else {
      var ph := Joined(Name(x), before, [c], after, Name(y));
      PhraseEndsExactly(ph, 0, "");
      assert PhraseText(ph) + (Spaces(0) + "") == PhraseText(ph);
    }
  }

  // ----- ordinary phrases are complete -----

  lemma {:induction false} BodyFolds(stack: seq<char>, b: Body)
    requires BodyFits(b) && stack != [] && stack[|stack| - 1] in {')', ']', '}'}
    ensures FoldAll(stack, BodyText(b)) == stack
    decreases b, 0
  {
    hide FoldAll;
    match b
    case End => FoldNothing(stack);
    case Plain(c, rest) =>
      FoldTwo(stack, [c], BodyText(rest));
      FoldOne(stack, c);
      BodyFolds(stack, rest);
    case Nest(bracket, inner, rest) =>
      NestFolds(stack, bracket, inner, BodyText(rest));
      BodyFolds(stack, rest);
  }

  lemma FoldNothing(stack: seq<char>)
    ensures FoldAll(stack, "") == stack
  {
  }

  lemma FoldOne(stack: seq<char>, c: char)
    ensures FoldAll(stack, [c]) == Fold(stack, c)
  {
    assert [c][1..] == "";
  }

  lemma {:induction false} NestFolds(stack: seq<char>, bracket: char, inner: Body, rest: Text)
    requires bracket in {'(', '[', '{'} && BodyFits(inner)
    ensures FoldAll(stack, [bracket] + (BodyText(inner) + ([Closer(bracket)] + rest))) == FoldAll(stack, rest)
    decreases inner, 1
  {
    hide FoldAll;
    var close := [Closer(bracket)];
    var deeper := stack + close;
    FoldTwo(stack, [bracket], BodyText(inner) + (close + rest));
    FoldOne(stack, bracket);
    FoldTwo(deeper, BodyText(inner), close + rest);
    BodyFolds(deeper, inner);
    FoldTwo(deeper, close, rest);
    FoldOne(deeper, Closer(bracket));
    assert deeper[..|deeper| - 1] == stack;
  }

  lemma {:induction false} PhraseFolds(ph: Phrase)
    requires Fits(ph)
    ensures FoldAll([], PhraseText(ph)) == []
    decreases ph
  {
    hide FoldAll, IsOperator, IsJsIdentifierChar;
    match ph
    case Name(word) => WordFolds(word);
    case Bracketed(bracket, body) =>
      assert BodyText(End) == "";
      NestFolds([], bracket, body, "");
      FoldNothing([]);
    case Applied(phrase, bracket, body) =>
      FoldTwo([], PhraseText(phrase), BodyText(Nest(bracket, body, End)));
      PhraseFolds(phrase);
      assert BodyText(End) == "";
      NestFolds([], bracket, body, "");
      FoldNothing([]);
    case Prefixed(op, phrase) =>
      FoldTwo([], [op], PhraseText(phrase));
      WordFolds([op]);
      PhraseFolds(phrase);
    case Joined(left, before, op, after, right) =>
      PhraseFolds(left);
      PhraseFolds(right);
      FiveFold(PhraseText(left), Spaces(before), op, Spaces(after), PhraseText(right));
  }

  lemma WordFolds(w: Text)
    requires forall c <- w :: IsNameChar(c) || c in OPERATORS || c == ' '
    ensures FoldAll([], w) == []
  {
    forall c | c in w
      ensures !IsOpenParen(c)
    {
      NameChars(c);
      OperatorChars(c);
    }
    FoldPlain(w);
  }

  lemma FiveFold(a: Text, b: Text, c: Text, d: Text, e: Text)
    requires FoldAll([], a) == [] && FoldAll([], e) == []
    requires forall x <- b + c + d :: x in OPERATORS || x == ' '
    ensures FoldAll([], a + (b + (c + (d + e)))) == []
  {
    hide FoldAll;
    FoldTwo([], a, b + (c + (d + e)));
    FoldTwo([], b, c + (d + e));
    FoldTwo([], c, d + e);
    FoldTwo([], d, e);
    assert forall x <- b :: x in b + c + d;
    assert forall x <- c :: x in b + c + d;
    assert forall x <- d :: x in b + c + d;
    WordFolds(b);
    WordFolds(c);
    WordFolds(d);
  }

  /** Every ordinary phrase is read to its end wherever it may stand: printed statements
      with such expressions parse back, whatever the scanner takes for an operator. */
  lemma PhraseIsComplete(ph: Phrase)
    requires Fits(ph)
    ensures Complete(PhraseText(ph))
  {
    hide FoldAll, ScanFrom, IsOperator, PhraseText;
    var t := PhraseText(ph);
    PhraseEnds(ph);
    PhraseFolds(ph);
    PhrasePasses(t, 0, ph);
    EndOfText(t);
    assert t[0..] == t;
  }

  // ----- statements of ordinary phrases -----

  /** A variable or a key. */
  predicate IsWord(w: Text) {
    w != "" && w[0] !in DIGITS && forall c <- w :: IsNameChar(c)
  }

  datatype Clause =
    | Value(phrase: Phrase, local: Option<Text>)
    | Keyed(key: Text, colon: bool, phrase: Phrase, local: Option<Text>)
    | Binding(variable: Text, export_: Option<Text>, bare: bool)

  function Spelled(c: Clause): Written {
    match c
    case Value(phrase, local) => WrittenExpression(PhraseText(phrase), local)
    case Keyed(key, colon, phrase, local) => WrittenKey(key, colon, PhraseText(phrase), local)
    case Binding(variable, export_, bare) => WrittenLet(variable, export_, bare)
  }

  /** The text does not begin with the keyword `let` or with three signs. */
  predicate BeginsExpression(t: Text) {
    && (|t| >= 3 && t[..3] == "let" ==> |t| > 3 && IsNameChar(t[3]))
    && !(|t| >= 3 && t[0] in "!+-" && t[1] in "!+-" && t[2] in "!+-")
  }

  /** The first clause is a value or a binding; later ones are bindings, keyed values, and
      words with a local name. */
  predicate IsClause(c: Clause, first: bool) {
    match c
    case Value(phrase, local) =>
      && Fits(phrase) && (local.Some? ==> IsWord(local.value))
      && if first then BeginsExpression(PhraseText(phrase))
         else phrase.Name? && IsWord(phrase.word) && phrase.word !in {"let", "as"} && local.Some?
    case Keyed(key, colon, phrase, local) =>
      && !first && IsWord(key) && '$' !in key && key !in {"let", "as"} && Fits(phrase)
      && (local.Some? ==> IsWord(local.value))
      && (colon || (PhraseText(phrase) != "as" && PhraseText(phrase)[0] != ':'))
    case Binding(variable, export_, _) => IsWord(variable) && (export_.Some? ==> IsWord(export_.value))
  }

  predicate AreClauses(cs: seq<Clause>, first: bool)
    decreases |cs|
  {
    cs != [] ==> IsClause(cs[0], first) && AreClauses(cs[1..], false)
  }

  function SpelledAll(cs: seq<Clause>): seq<Written> {
    seq(|cs|, i requires 0 <= i < |cs| => Spelled(cs[i]))
  }

  lemma WordIsWord(w: Text)
    requires IsWord(w)
    ensures Word(w)
  {
    forall c | c in w
      ensures IsJsIdentifierChar(c)
    {
      NameChars(c);
    }
    LettersAreLetters(w[0]);
  }

  lemma Begins(t: Text)
    requires BeginsExpression(t)
    ensures StartsExpression(t)
  {
    var n := IdentifierEnd(t, 0, true);
    if t[..n] == "let" {
      assert |t| >= 3 && t[..3] == "let";
      if |t| > 3 {
        NameChars(t[3]);
      }
    }
  }

  lemma ClauseIsValid(c: Clause, first: bool)
    requires IsClause(c, first)
    ensures Valid(Spelled(c), first)
  {
    hide Complete, StartsExpression, Word, IsWord, BeginsExpression, PhraseText, IsNameChar, Fits;
    match c
    case Value(phrase, local) =>
      PhraseIsComplete(phrase);
      if local.Some? { WordIsWord(local.value); }
      if first {
        Begins(PhraseText(phrase));
      } else {
        WordIsWord(phrase.word);
        assert PhraseText(phrase) == phrase.word by { NameText(phrase.word); }
      }
    case Keyed(key, _, phrase, local) =>
      PhraseIsComplete(phrase);
      WordIsWord(key);
      if local.Some? { WordIsWord(local.value); }
    case Binding(variable, export_, _) =>
      WordIsWord(variable);
      if export_.Some? { WordIsWord(export_.value); }
  }

  lemma NameText(word: Text)
    ensures PhraseText(Name(word)) == word
  {
  }

  lemma {:induction false} ClausesAreValid(cs: seq<Clause>, first: bool)
    requires AreClauses(cs, first)
    ensures ValidAll(SpelledAll(cs), first)
    decreases |cs|
  {
    hide Valid, IsClause, Spelled;
    if cs != [] {
      ClauseIsValid(cs[0], first);
      ClausesAreValid(cs[1..], false);
      assert SpelledAll(cs)[1..] == SpelledAll(cs[1..]);
    }
  }

  /** Round trip for statements of words and ordinary expressions, as the alphabets and the
      grammar have them: each is read back at its offset. */
  lemma ClausesRoundTrip(cs: seq<Clause>, d: char)
    requires AreClauses(cs, true) && d in ";,"
    ensures Parse(PrintAll(SpelledAll(cs), d)) == Parsed(LocateAll(SpelledAll(cs), 0))
  {
    ClausesAreValid(cs, true);
    RoundTrip(SpelledAll(cs), d);
  }

  /** Signs in front: one or two begin an expression, a third is an error, and nothing may
      be missing behind them. */
  lemma SignsDecide(s: Text, i: nat, m: nat, ss: seq<Statement>)
    requires 0 < m && i + m <= |s| && forall k :: i <= k < i + m ==> s[k] in "!+-"
    requires i + m < |s| ==> s[i + m] !in "!+-"
    ensures BaseTurn(s, i, ss) ==
            if m >= 3 then Stop(if i + 3 < |s| then BadInput else Panicked)
            else if i + m == |s| then Stop(Panicked) else Go(i, ExpressionState, ss)
  {
    hide ScanFrom, Identifier, SkipBlanks;
    SignsRead(s, i, m, 0);
  }

  lemma {:induction false} SignsRead(s: Text, i: nat, m: nat, n: nat)
    requires i < |s| && i + m <= |s| && n <= 2 && forall k :: i <= k < i + m ==> s[k] in "!+-"
    requires i + m < |s| ==> s[i + m] !in "!+-"
    ensures UnaryEnd(s, i, n) ==
            if n + m >= 3 then (if i + 3 - n < |s| then Bad else TakePanic)
            else if i + m == |s| then TakePanic else Took(i + m)
    decreases m
  {
    if m > 0 && i + 1 < |s| && n < 2 {
      SignsRead(s, i + 1, m - 1, n + 1);
    }
  }
}
