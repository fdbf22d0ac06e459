/** The texts the selector parser takes, as sequences of tokens, and what they mean. */
module SelectorGrammar {
  import opened Options
  import opened Selectors
  import opened Texts
  import MicroGrammar

  // ----- tokens -----

  predicate NameChar(c: char) {
    c in MicroGrammar.LOWER || c in MicroGrammar.UPPER || c in {'-', '_'}
  }

  /** `Negation` is `:not` and the character behind it, whatever it is; `Skipped` has no
      meaning. */
  datatype Token =
    | Element(name: Text)
    | Attribute(text: Text)
    | Negation(next: char)
    | Parenthesis(opens: bool)
    | Skipped(c: char)

  /** The end of the text: clean, behind an opening bracket, behind `:not`, or in the
      middle of `:not`. */
  datatype Tail = Clean | OpenBracket | OpenNegation | Cut(letters: Text)

  datatype Tokens = End(tail: Tail) | More(head: Token, rest: Tokens)

  function TokenText(t: Token): Text {
    match t
    case Element(name) => name
    case Attribute(text) => "[" + (text + "]")
    case Negation(next) => ":not" + [next]
    case Parenthesis(opens) => if opens then "(" else ")"
    case Skipped(c) => [c]
  }

  function TailText(t: Tail): Text {
    match t
    case Clean => ""
    case OpenBracket => "["
    case OpenNegation => ":not"
    case Cut(letters) => ":" + letters
  }

  function TextOf(ts: Tokens): Text {
    match ts
    case End(tail) => TailText(tail)
    case More(t, rest) => TokenText(t) + TextOf(rest)
  }

  predicate Proper(t: Token) {
    match t
    case Element(name) => name != "" && forall c <- name :: NameChar(c)
    case Attribute(text) => forall c <- text :: NameChar(c) || c == '='
    case Negation(_) => true
    case Parenthesis(_) => true
    case Skipped(c) => !NameChar(c) && c !in {'[', ':', '(', ')'}
  }

  /** Proper tokens, and names as long as they can be. */
  predicate Fits(ts: Tokens) {
    match ts
    case End(tail) => tail.Cut? ==> tail.letters in {"", "n", "no"}
    case More(t, rest) => Proper(t) && Fits(rest) && !(t.Element? && rest.More? && rest.head.Element?)
  }

  // ----- what they mean -----

  /** A name is the tag, outside of `:not(` and at the very end of the text; elsewhere it
      is an excluded tag. */
  function Meaning(ts: Tokens, not_: bool, sel: Selector): Outcome
    decreases ts
  {
    match ts
    case End(tail) => if tail.Cut? then Panicked else Parsed(sel)
    case More(Element(name), rest) =>
      if not_ && rest != End(Clean) then Meaning(rest, not_, sel.(notTags := sel.notTags + [name]))
      else Meaning(rest, not_, sel.(tag := name))
    case More(Attribute(text), rest) =>
      if not_ then Meaning(rest, not_, sel.(notAttributes := sel.notAttributes + [text]))
      else Meaning(rest, not_, sel.(attributes := sel.attributes + [text]))
    case More(Negation(next), rest) => Meaning(rest, next == '(' || (next != ')' && not_), sel)
    case More(Parenthesis(opens), rest) => Meaning(rest, opens, sel)
    case More(Skipped(_), rest) => Meaning(rest, not_, sel)
  }

  // ----- one token -----

  lemma NameChars(c: char)
    ensures NameChar(c) <==> IsIdentifierChar(c)
    ensures NameChar(c) ==> c !in {'[', ']', ':', '(', ')', '='}
  {
    MicroGrammar.LettersAreLetters(c);
  }

  lemma NamesRun(s: Text, i: nat, name: Text, not_: bool, sel: Selector)
    requires HasAt(s, i, name) && Proper(Element(name))
    requires i + |name| < |s| ==> !NameChar(s[i + |name|])
    ensures i + |name| <= |s| && Run(s, i, Base, "", not_, sel) ==
            if i + |name| == |s| then Parsed(sel.(tag := name))
            else Run(s, i + |name|, Base, "", not_, WithTag(sel, not_, name))
  {
    forall c
      ensures NameChar(c) <==> IsIdentifierChar(c)
    {
      NameChars(c);
    }
    LastChar(s, i, name);
    TagOpens(s, i, not_, sel);
    TagRuns(s, i, name, "", not_, sel);
    assert "" + name == name;
  }

  lemma NegationRuns(s: Text, i: nat, not_: bool, sel: Selector)
    requires HasAt(s, i, ":not")
    ensures i + 4 <= |s| && Run(s, i, Base, "", not_, sel) ==
            if i + 4 == |s| then Parsed(sel)
            else Run(s, i + 5, Base, "", s[i + 4] == '(' || (s[i + 4] != ')' && not_), sel)
  {
    LastChar(s, i, ":not");
    HasAtChar(s, i, ":not", 1);
    HasAtChar(s, i, ":not", 2);
    HasAtChar(s, i, ":not", 3);
    assert Run(s, i, Base, "", not_, sel) == Run(s, i + 4, Not, "", not_, sel);
  }

  lemma CutPanics(s: Text, i: nat, letters: Text, not_: bool, sel: Selector)
    requires letters in {"", "n", "no"} && HasAt(s, i, ":" + letters) && i + 1 + |letters| == |s|
    ensures Run(s, i, Base, "", not_, sel) == Panicked
  {
    LastChar(s, i, ":" + letters);
    forall k | 0 <= k < |letters|
      ensures s[i + 1 + k] == letters[k]
    {
      HasAtChar(s, i, ":" + letters, 1 + k);
    }
  }

  lemma ParenthesisRuns(s: Text, i: nat, not_: bool, sel: Selector)
    requires i < |s| && s[i] in {'(', ')'}
    ensures Run(s, i, Base, "", not_, sel) == Run(s, i + 1, Base, "", s[i] == '(', sel)
  {
    assert Run(s, i, Base, "", not_, sel) == Run(s, i, Not, "", not_, sel);
  }

  lemma SkippedRuns(s: Text, i: nat, not_: bool, sel: Selector)
    requires i < |s| && Proper(Skipped(s[i]))
    ensures Run(s, i, Base, "", not_, sel) == Run(s, i + 1, Base, "", not_, sel)
  {
    NameChars(s[i]);
  }

  lemma TailRuns(s: Text, i: nat, tail: Tail, not_: bool, sel: Selector)
    requires Fits(End(tail)) && HasAt(s, i, TailText(tail)) && i + |TailText(tail)| == |s|
    ensures Run(s, i, Base, "", not_, sel) == Meaning(End(tail), not_, sel)
  {
    match tail
    case Clean =>
    case OpenBracket =>
      LastChar(s, i, "[");
      AttributeOpens(s, i, not_, sel);
    case OpenNegation => NegationRuns(s, i, not_, sel);
    case Cut(letters) => CutPanics(s, i, letters, not_, sel);
  }

  /** Behind a name stands no character of a name. */
  lemma NameEnds(s: Text, i: nat, ts: Tokens)
    requires HasAt(s, i, TextOf(ts)) && i + |TextOf(ts)| == |s| && Fits(ts) && !(ts.More? && ts.head.Element?)
    ensures i < |s| ==> !NameChar(s[i])
    ensures TextOf(ts) == "" <==> ts == End(Clean)
  {
    var first := if ts.End? then TailText(ts.tail) else TokenText(ts.head);
    if first != "" {
      assert TextOf(ts)[0] == first[0];
      HasAtChar(s, i, TextOf(ts), 0);
      NameChars(first[0]);
    }
  }

  /** Tokens are read as what they mean. */
  lemma {:induction false} TokensRun(s: Text, i: nat, ts: Tokens, not_: bool, sel: Selector)
    requires HasAt(s, i, TextOf(ts)) && i + |TextOf(ts)| == |s| && Fits(ts)
    ensures Run(s, i, Base, "", not_, sel) == Meaning(ts, not_, sel)
    decreases ts
  {
    hide Run, HasAt;
    match ts
    case End(tail) => TailRuns(s, i, tail, not_, sel);
    case More(t, rest) =>
      var text := TokenText(t);
      HasBoth(s, i, text, TextOf(rest));
      var k := i + |text|;
      LastChar(s, i, text);
      match t {
        case Element(name) =>
          NameEnds(s, k, rest);
          NamesRun(s, i, name, not_, sel);
          TokensRun(s, k, rest, not_, if rest == End(Clean) then sel.(tag := name) else WithTag(sel, not_, name));
        case Attribute(a) =>
          AttributeChars(a);
          AttributeParses(s, i, a, not_, sel);
          TokensRun(s, k, rest, not_, WithAttribute(sel, not_, a));
        case Negation(next) =>
          HasBoth(s, i, ":not", [next]);
          LastChar(s, i + 4, [next]);
          NegationRuns(s, i, not_, sel);
          TokensRun(s, k, rest, next == '(' || (next != ')' && not_), sel);
        case Parenthesis(opens) =>
          ParenthesisRuns(s, i, not_, sel);
          TokensRun(s, k, rest, opens, sel);
        case Skipped(c) =>
          SkippedRuns(s, i, not_, sel);
          TokensRun(s, k, rest, not_, sel);
      }
  }

  lemma AttributeChars(a: Text)
    ensures Proper(Attribute(a)) <==> AttributeText(a)
  {
    forall c
      ensures NameChar(c) <==> IsIdentifierChar(c)
    {
      NameChars(c);
    }
  }

  // ----- every text -----

  /** Where the run of characters of a name, or of an attribute, ends. */
  function EndOfRun(s: Text, i: nat, equals: bool): (k: nat)
    requires i <= |s|
    ensures i <= k <= |s| && (forall j :: i <= j < k ==> NameChar(s[j]) || (equals && s[j] == '='))
    ensures k < |s| ==> !NameChar(s[k]) && !(equals && s[k] == '=')
    decreases |s| - i
  {
    if i < |s| && (NameChar(s[i]) || (equals && s[i] == '=')) then EndOfRun(s, i + 1, equals) else i
  }

  lemma SliceStands(s: Text, i: nat, k: nat)
    requires i <= k <= |s|
    ensures HasAt(s, i, s[i..k])
  {
  }

  /** A bracket is closed behind an attribute, or stands at the end of the text. */
  lemma BracketRuns(s: Text, i: nat, not_: bool, sel: Selector)
    requires i < |s| && s[i] == '['
    ensures var k := EndOfRun(s, i + 1, true);
            Run(s, i, Base, "", not_, sel) ==
              if k < |s| && s[k] == ']' then Run(s, k + 1, Base, "", not_, WithAttribute(sel, not_, s[i + 1..k]))
              else if i + 1 == |s| then Parsed(sel) else BadInput
  {
    hide Run, HasAt, NameChar, EndOfRun;
    var k := EndOfRun(s, i + 1, true);
    var a := s[i + 1..k];
    SliceStands(s, i + 1, k);
    AttributeOpens(s, i, not_, sel);
    AttributeIsProper(s, i + 1);
    AttrRuns(s, i + 1, a, "", not_, sel);
    assert "" + a == a;
    if k < |s| {
      NameChars(s[k]);
    }
    AttributeEnds(s, k, a, not_, sel);
  }

  lemma AttributeIsProper(s: Text, i: nat)
    requires i <= |s|
    ensures Proper(Attribute(s[i..EndOfRun(s, i, true)])) && AttributeText(s[i..EndOfRun(s, i, true)])
  {
    var k := EndOfRun(s, i, true);
    forall j | 0 <= j < k - i
      ensures NameChar(s[i..k][j]) || s[i..k][j] == '='
    {
      assert s[i..k][j] == s[i + j];
    }
    AttributeChars(s[i..k]);
  }

  /** Behind the characters of an attribute comes its bracket. */
  lemma AttributeEnds(s: Text, k: nat, a: Text, not_: bool, sel: Selector)
    requires k <= |s| && (k < |s| ==> !IsIdentifierChar(s[k]) && s[k] != '=')
    ensures Run(s, k, Attr, a, not_, sel) ==
            if k < |s| && s[k] == ']' then Run(s, k + 1, Base, "", not_, WithAttribute(sel, not_, a))
            else if k == |s| && a == "" then Parsed(sel) else BadInput
  {
    if k < |s| && s[k] == ']' {
      AttributeCloses(s, k, a, not_, sel);
    }
  }

  /** Behind a colon stands `not`, or the text ends in the middle of it, or it is bad. */
  lemma ColonRuns(s: Text, i: nat, not_: bool, sel: Selector)
    requires i < |s| && s[i] == ':'
    ensures HasAt(s, i, ":not") || Run(s, i, Base, "", not_, sel) == BadInput
            || (Run(s, i, Base, "", not_, sel) == Panicked && s[i + 1..] in {"", "n", "no"})
  {
    if TakeNot(s, i + 1).None? {
      assert s[i..i + 4] == ":not";
    } else if TakeNot(s, i + 1) == Some(Panicked) {
      assert s[i + 1..] == if |s| == i + 1 then "" else if |s| == i + 2 then "n" else "no";
    }
  }

  /** Whatever is read without an error is a sequence of tokens. */
  lemma {:induction false} RunsAreTokens(s: Text, i: nat, not_: bool, sel: Selector) returns (ts: Tokens)
    requires i <= |s| && Run(s, i, Base, "", not_, sel) != BadInput
    ensures Fits(ts) && TextOf(ts) == s[i..]
    ensures i < |s| && ts.More? && ts.head.Element? ==> NameChar(s[i])
    decreases |s| - i, 1
  {
    hide Run, HasAt, NameChar, EndOfRun, TextOf, Fits, Proper, TokenText;
    if i == |s| {
      Ends(s, i, Clean);
      return End(Clean);
    }
    var c := s[i];
    if NameChar(c) {
      var k := EndOfRun(s, i, false);
      NameAt(s, i, not_, sel);
      var rest := End(Clean);
      if k == |s| {
        Ends(s, k, Clean);
      } else {
        rest := RunsAreTokens(s, k, not_, WithTag(sel, not_, s[i..k]));
      }
      Grows(s, i, k, Element(s[i..k]), rest);
      return More(Element(s[i..k]), rest);
    } else if c == '[' {
      var k := EndOfRun(s, i + 1, true);
      BracketRuns(s, i, not_, sel);
      if i + 1 == |s| {
        Ends(s, i, OpenBracket);
        return End(OpenBracket);
      }
      BracketAt(s, i, k);
      var rest := RunsAreTokens(s, k + 1, not_, WithAttribute(sel, not_, s[i + 1..k]));
      Grows(s, i, k + 1, Attribute(s[i + 1..k]), rest);
      return More(Attribute(s[i + 1..k]), rest);
    } else if c == ':' {
      ts := ColonTokens(s, i, not_, sel);
    } else if c == '(' || c == ')' {
      ParenthesisRuns(s, i, not_, sel);
      var rest := RunsAreTokens(s, i + 1, c == '(', sel);
      OneAt(s, i, Parenthesis(c == '('));
      Grows(s, i, i + 1, Parenthesis(c == '('), rest);
      return More(Parenthesis(c == '('), rest);
    } else {
      OneAt(s, i, Skipped(c));
      SkippedRuns(s, i, not_, sel);
      var rest := RunsAreTokens(s, i + 1, not_, sel);
      Grows(s, i, i + 1, Skipped(c), rest);
      return More(Skipped(c), rest);
    }
  }

  lemma {:induction false} ColonTokens(s: Text, i: nat, not_: bool, sel: Selector) returns (ts: Tokens)
    requires i < |s| && s[i] == ':' && Run(s, i, Base, "", not_, sel) != BadInput
    ensures Fits(ts) && TextOf(ts) == s[i..] && !(ts.More? && ts.head.Element?)
    decreases |s| - i, 0
  {
    hide Run, HasAt, TextOf, Fits, Proper;
    ColonRuns(s, i, not_, sel);
    if !HasAt(s, i, ":not") {
      Ends(s, i, Cut(s[i + 1..]));
      return End(Cut(s[i + 1..]));
    }
    NegationRuns(s, i, not_, sel);
    LastChar(s, i, ":not");
    if i + 4 == |s| {
      Ends(s, i, OpenNegation);
      return End(OpenNegation);
    }
    var next := s[i + 4];
    var rest := RunsAreTokens(s, i + 5, next == '(' || (next != ')' && not_), sel);
    assert s[i..i + 5] == s[i..i + 4] + [next];
    assert Proper(Negation(next)) by { NegationIsProper(next); }
    Grows(s, i, i + 5, Negation(next), rest);
    return More(Negation(next), rest);
  }

  lemma NegationIsProper(next: char)
    ensures Proper(Negation(next))
  {
  }

  lemma NameAt(s: Text, i: nat, not_: bool, sel: Selector)
    requires i < |s| && NameChar(s[i])
    ensures var k := EndOfRun(s, i, false); var name := s[i..k];
      && i < k && Proper(Element(name)) && TokenText(Element(name)) == name
      && (k < |s| ==> !NameChar(s[k]) && Run(s, i, Base, "", not_, sel) ==
                        Run(s, k, Base, "", not_, WithTag(sel, not_, name)))
  {
    hide Run, HasAt, NameChar;
    var k := EndOfRun(s, i, false);
    NameIsProper(s, i);
    SliceStands(s, i, k);
    NamesRun(s, i, s[i..k], not_, sel);
  }

  lemma Framed(s: Text, i: nat, k: nat)
    requires i < k < |s|
    ensures s[i..k + 1] == [s[i]] + (s[i + 1..k] + [s[k]])
  {
    assert s[i + 1..k + 1] == s[i + 1..k] + [s[k]];
    assert s[i..k + 1] == [s[i]] + s[i + 1..k + 1];
  }

  lemma BracketAt(s: Text, i: nat, k: nat)
    requires i < k < |s| && s[i] == '[' && s[k] == ']' && k == EndOfRun(s, i + 1, true)
    ensures Proper(Attribute(s[i + 1..k])) && TokenText(Attribute(s[i + 1..k])) == s[i..k + 1]
  {
    AttributeIsProper(s, i + 1);
    Framed(s, i, k);
    assert [s[i]] == "[" && [s[k]] == "]";
  }

  lemma OneAt(s: Text, i: nat, t: Token)
    requires i < |s|
    requires (t == Parenthesis(s[i] == '(') && s[i] in {'(', ')'})
             || (t == Skipped(s[i]) && !NameChar(s[i]) && s[i] !in {'[', ':', '(', ')'})
    ensures Proper(t) && TokenText(t) == s[i..i + 1]
  {
  }

  lemma Ends(s: Text, i: nat, tail: Tail)
    requires i <= |s| && (tail.Cut? ==> tail.letters in {"", "n", "no"})
    ensures s[i..] == TailText(tail) ==> TextOf(End(tail)) == s[i..]
    ensures Fits(End(tail))
  {
  }

  lemma Grows(s: Text, i: nat, k: nat, t: Token, rest: Tokens)
    requires i <= k <= |s| && TokenText(t) == s[i..k] && TextOf(rest) == s[k..] && Proper(t) && Fits(rest)
    requires !(t.Element? && rest.More? && rest.head.Element?)
    ensures Fits(More(t, rest)) && TextOf(More(t, rest)) == s[i..]
  {
    assert s[i..] == s[i..k] + s[k..];
  }

  lemma NameIsProper(s: Text, i: nat)
    requires i < |s| && NameChar(s[i])
    ensures var k := EndOfRun(s, i, false); i < k && Proper(Element(s[i..k]))
  {
  }

  /** The parser takes exactly the sequences of tokens, as what they mean; it panics on
      those that end in the middle of `:not`, and every other text is an error. */
  lemma ParsesExactly(s: Text, r: Outcome)
    requires r != BadInput
    ensures Parse(s) == r <==> exists ts :: Fits(ts) && TextOf(ts) == s && Meaning(ts, false, EMPTY) == r
  {
    hide Run, HasAt;
    forall ts | Fits(ts) && TextOf(ts) == s
      ensures Parse(s) == Meaning(ts, false, EMPTY)
    {
      Whole(s);
      TokensRun(s, 0, ts, false, EMPTY);
    }
    if Parse(s) == r {
      var ts := RunsAreTokens(s, 0, false, EMPTY);
      assert s[0..] == s;
      assert Fits(ts) && TextOf(ts) == s;
    }
  }
}
