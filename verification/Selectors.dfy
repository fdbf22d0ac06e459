/** The parser of component and directive selectors. */
module Selectors {
  import opened MicroExpression
  import opened Options
  import opened Texts

  datatype Selector = Selector(tag: Text, attributes: seq<Text>, notTags: seq<Text>, notAttributes: seq<Text>)

  const EMPTY := Selector("", [], [], [])

  datatype LexState = Base | Tag | Attr | Not

  /** `Panicked` is a read past the end of the text. */
  datatype Outcome = Parsed(selector: Selector) | BadInput | Panicked

  predicate IsIdentifierChar(c: char) {
    IsLetter(c) || c == '-' || c == '_'
  }

  // ----- one turn -----

  datatype Turn =
    | Go(index: nat, state: LexState, buf: Text, not_: bool, selector: Selector)
    | Stop(outcome: Outcome)

  function WithTag(sel: Selector, not_: bool, tag: Text): Selector {
    if not_ then sel.(notTags := sel.notTags + [tag]) else sel.(tag := tag)
  }

  function WithAttribute(sel: Selector, not_: bool, attribute: Text): Selector {
    if not_ then sel.(notAttributes := sel.notAttributes + [attribute])
    else sel.(attributes := sel.attributes + [attribute])
  }

  /** Takes the rest of `:not` letter by letter: a wrong letter is an error, the end of
      the text is not checked for. */
  function TakeNot(s: Text, i: nat): Option<Outcome> {
    if i >= |s| then Some(Panicked) else if s[i] != 'n' then Some(BadInput)
    else if i + 1 >= |s| then Some(Panicked) else if s[i + 1] != 'o' then Some(BadInput)
    else if i + 2 >= |s| then Some(Panicked) else if s[i + 2] != 't' then Some(BadInput)
    else None
  }

  function TurnOf(s: Text, i: nat, state: LexState, buf: Text, not_: bool, sel: Selector): (r: Turn)
    requires i < |s|
    ensures r.Go? ==> i <= r.index <= |s|
    ensures r.Go? && r.index == i ==> Rank(s[i], r.state) < Rank(s[i], state)
  {
    var c := s[i];
    match state
    case Base =>
      if IsIdentifierChar(c) then Go(i, Tag, buf, not_, sel)
      else if c == '[' then Go(i + 1, Attr, buf, not_, sel)
      else if c == ':' then
        var bad := TakeNot(s, i + 1);
        if bad.Some? then Stop(bad.value) else Go(i + 4, Not, buf, not_, sel)
      else if c == '(' || c == ')' then Go(i, Not, buf, not_, sel)
      else Go(i + 1, Base, buf, not_, sel)
    case Tag =>
      if IsIdentifierChar(c) then Go(i + 1, Tag, buf + [c], not_, sel)
      else Go(i, Base, "", not_, WithTag(sel, not_, buf))
    case Not =>
      Go(i + 1, Base, buf, if c == '(' then true else if c == ')' then false else not_, sel)
    case Attr =>
      if IsIdentifierChar(c) || c == '=' then Go(i + 1, Attr, buf + [c], not_, sel)
      else if c == ']' then Go(i + 1, Base, "", not_, WithAttribute(sel, not_, buf))
      else Stop(BadInput)
  }

  /** Turns that consume nothing lead down this ladder. */
  function Rank(c: char, state: LexState): nat {
    match state
    case Tag => if IsIdentifierChar(c) then 0 else 2
    case Base => 1
    case Not => 0
    case Attr => 0
  }

  /** A tag at the very end is the tag, even inside `:not(`. */
  function Finish(state: LexState, buf: Text, sel: Selector): Outcome {
    if buf == "" then Parsed(sel)
    else
      match state
      case Attr => BadInput
      case Tag => Parsed(sel.(tag := buf))
      case Not => BadInput
      case Base => Parsed(sel)
  }

  function Run(s: Text, i: nat, state: LexState, buf: Text, not_: bool, sel: Selector): Outcome
    requires i <= |s|
    decreases |s| - i, if i < |s| then Rank(s[i], state) else 0
  {
    if i == |s| then Finish(state, buf, sel)
    else
      match TurnOf(s, i, state, buf, not_, sel)
      case Stop(outcome) => outcome
      case Go(j, next, b, n, more) => Run(s, j, next, b, n, more)
  }

  function Parse(s: Text): Outcome {
    Run(s, 0, Base, "", false, EMPTY)
  }

  method ParseSelector(runeText: Text) returns (r: Outcome)
    ensures r == Parse(runeText)
  {
    var selector := EMPTY;
    var state := Base;
    var buf := "";
    var notState := false;
    var i := 0;
    while i < |runeText|
      invariant i <= |runeText| && Parse(runeText) == Run(runeText, i, state, buf, notState, selector)
      decreases |runeText| - i, if i < |runeText| then Rank(runeText[i], state) else 0
    {
      var c := runeText[i];
      match state {
        case Base =>
          if IsIdentifierChar(c) {
            state := Tag;
            continue;
          }
          match c {
            case '[' =>
              i, state := i + 1, Attr;
            case ':' =>
              var bad := TakeNot(runeText, i + 1);
              if bad.Some? {
                return bad.value;
              }
              i, state := i + 4, Not;
            case '(' =>
              state := Not;
            case ')' =>
              state := Not;
            case _ =>
              i := i + 1;
          }
        case Tag =>
          if IsIdentifierChar(c) {
            buf, i := buf + [c], i + 1;
            continue;
          }
          if notState {
            selector := selector.(notTags := selector.notTags + [buf]);
          } else {
            selector := selector.(tag := buf);
          }
          buf, state := "", Base;
        case Not =>
          match c {
            case '(' => notState := true;
            case ')' => notState := false;
            case _ =>
          }
          i, state := i + 1, Base;
        case Attr =>
          if IsIdentifierChar(c) || c == '=' {
            buf, i := buf + [c], i + 1;
            continue;
          }
          if c != ']' {
            return BadInput;
          }
          if notState {
            selector := selector.(notAttributes := selector.notAttributes + [buf]);
          } else {
            selector := selector.(attributes := selector.attributes + [buf]);
          }
          buf, i, state := "", i + 1, Base;
      }
    }
    return Finish(state, buf, selector);
  }

  // ----- round trip -----

  predicate Name(t: Text) {
    t != "" && forall c <- t :: IsIdentifierChar(c)
  }

  predicate AttributeText(t: Text) {
    forall c <- t :: IsIdentifierChar(c) || c == '='
  }

  predicate Valid(sel: Selector) {
    && (sel.tag != "" ==> Name(sel.tag))
    && (forall a <- sel.attributes :: AttributeText(a)) && (forall a <- sel.notAttributes :: AttributeText(a))
    && forall t <- sel.notTags :: Name(t)
  }

  /** Each text between an opening and a closing one. */
  function Wrapped(open: Text, ts: seq<Text>, close: Text): Text
    decreases |ts|
  {
    if ts == [] then "" else open + (ts[0] + (close + Wrapped(open, ts[1..], close)))
  }

  function Print(sel: Selector): Text {
    sel.tag + (Wrapped("[", sel.attributes, "]") + (Wrapped(":not(", sel.notTags, ")") +
        Wrapped(":not([", sel.notAttributes, "])")))
  }

  lemma {:induction false} TagRuns(s: Text, i: nat, t: Text, buf: Text, not_: bool, sel: Selector)
    requires HasAt(s, i, t) && forall c <- t :: IsIdentifierChar(c)
    ensures i + |t| <= |s| && Run(s, i, Tag, buf, not_, sel) == Run(s, i + |t|, Tag, buf + t, not_, sel)
    decreases |t|
  {
    if t == "" {
      assert buf + t == buf;
    } else {
      assert t == [t[0]] + t[1..];
      HasBoth(s, i, [t[0]], t[1..]);
      LastChar(s, i, t);
      TagRuns(s, i + 1, t[1..], buf + [t[0]], not_, sel);
      assert buf + [t[0]] + t[1..] == buf + t;
    }
  }

  lemma {:induction false} AttrRuns(s: Text, i: nat, t: Text, buf: Text, not_: bool, sel: Selector)
    requires HasAt(s, i, t) && AttributeText(t)
    ensures i + |t| <= |s| && Run(s, i, Attr, buf, not_, sel) == Run(s, i + |t|, Attr, buf + t, not_, sel)
    decreases |t|
  {
    if t == "" {
      assert buf + t == buf;
    } else {
      assert t == [t[0]] + t[1..];
      HasBoth(s, i, [t[0]], t[1..]);
      LastChar(s, i, t);
      AttrRuns(s, i + 1, t[1..], buf + [t[0]], not_, sel);
      assert buf + [t[0]] + t[1..] == buf + t;
    }
  }

  /** `[a]`, inside or outside of `:not(...)`. */
  lemma AttributeParses(s: Text, i: nat, a: Text, not_: bool, sel: Selector)
    requires HasAt(s, i, "[" + (a + "]")) && AttributeText(a)
    ensures i + |a| + 2 <= |s| && Run(s, i, Base, "", not_, sel) ==
            Run(s, i + |a| + 2, Base, "", not_, WithAttribute(sel, not_, a))
  {
    hide Run, HasAt, AttributeText;
    HasBoth(s, i, "[", a + "]");
    HasBoth(s, i + 1, a, "]");
    LastChar(s, i, "[");
    LastChar(s, i + 1 + |a|, "]");
    AttributeOpens(s, i, not_, sel);
    AttrRuns(s, i + 1, a, "", not_, sel);
    assert "" + a == a;
    AttributeCloses(s, i + 1 + |a|, a, not_, sel);
  }

  lemma AttributeOpens(s: Text, i: nat, not_: bool, sel: Selector)
    requires i < |s| && s[i] == '['
    ensures Run(s, i, Base, "", not_, sel) == Run(s, i + 1, Attr, "", not_, sel)
  {
  }

  lemma AttributeCloses(s: Text, i: nat, a: Text, not_: bool, sel: Selector)
    requires i < |s| && s[i] == ']'
    ensures Run(s, i, Attr, a, not_, sel) == Run(s, i + 1, Base, "", not_, WithAttribute(sel, not_, a))
  {
  }

  lemma TagOpens(s: Text, i: nat, not_: bool, sel: Selector)
    requires i < |s| && IsIdentifierChar(s[i])
    ensures Run(s, i, Base, "", not_, sel) == Run(s, i, Tag, "", not_, sel)
  {
  }

  lemma TagCloses(s: Text, i: nat, t: Text, sel: Selector)
    requires i < |s| && s[i] == ')'
    ensures Run(s, i, Tag, t, true, sel) == Run(s, i, Base, "", true, WithTag(sel, true, t))
  {
  }

  /** `:not(` */
  lemma NotOpens(s: Text, i: nat, sel: Selector)
    requires HasAt(s, i, ":not(")
    ensures i + 5 <= |s| && Run(s, i, Base, "", false, sel) == Run(s, i + 5, Base, "", true, sel)
  {
    LastChar(s, i, ":not(");
    HasAtChar(s, i, ":not(", 1);
    HasAtChar(s, i, ":not(", 2);
    HasAtChar(s, i, ":not(", 3);
    HasAtChar(s, i, ":not(", 4);
    assert Run(s, i, Base, "", false, sel) == Run(s, i + 4, Not, "", false, sel);
  }

  lemma NotCloses(s: Text, i: nat, sel: Selector)
    requires i < |s| && s[i] == ')'
    ensures Run(s, i, Base, "", true, sel) == Run(s, i + 1, Base, "", false, sel)
  {
    assert Run(s, i, Base, "", true, sel) == Run(s, i, Not, "", true, sel);
  }

  lemma {:induction false} AttributesParse(s: Text, i: nat, ts: seq<Text>, sel: Selector)
    requires HasAt(s, i, Wrapped("[", ts, "]")) && forall t <- ts :: AttributeText(t)
    ensures var k := i + |Wrapped("[", ts, "]")|;
            k <= |s| && Run(s, i, Base, "", false, sel) ==
                Run(s, k, Base, "", false, sel.(attributes := sel.attributes + ts))
    decreases |ts|
  {
    hide Run, HasAt;
    if ts == [] {
      assert sel.attributes + ts == sel.attributes;
      AtStart(s, i);
    } else {
      var rest := Wrapped("[", ts[1..], "]");
      assert Wrapped("[", ts, "]") == ("[" + (ts[0] + "]")) + rest;
      HasBoth(s, i, "[" + (ts[0] + "]"), rest);
      AttributeParses(s, i, ts[0], false, sel);
      AttributesParse(s, i + |ts[0]| + 2, ts[1..], WithAttribute(sel, false, ts[0]));
      assert sel.attributes + [ts[0]] + ts[1..] == sel.attributes + ts;
    }
  }

  lemma AtStart(s: Text, i: nat)
    ensures HasAt(s, i, "") ==> i <= |s|
  {
  }

  lemma NotTagParses(s: Text, i: nat, t: Text, sel: Selector)
    requires HasAt(s, i, ":not(" + (t + ")")) && Name(t)
    ensures var k := i + |t| + 6;
            k <= |s| && Run(s, i, Base, "", false, sel) == Run(s, k, Base, "", false, WithTag(sel, true, t))
  {
    hide Run, HasAt;
    HasBoth(s, i, ":not(", t + ")");
    HasBoth(s, i + 5, t, ")");
    LastChar(s, i + 5, t);
    LastChar(s, i + 5 + |t|, ")");
    NotOpens(s, i, sel);
    TagOpens(s, i + 5, true, sel);
    TagRuns(s, i + 5, t, "", true, sel);
    assert "" + t == t;
    TagCloses(s, i + 5 + |t|, t, sel);
    NotCloses(s, i + 5 + |t|, WithTag(sel, true, t));
  }

  lemma {:induction false} NotTagsParse(s: Text, i: nat, ts: seq<Text>, sel: Selector)
    requires HasAt(s, i, Wrapped(":not(", ts, ")")) && forall t <- ts :: Name(t)
    ensures var k := i + |Wrapped(":not(", ts, ")")|;
            k <= |s| && Run(s, i, Base, "", false, sel) == Run(s, k, Base, "", false, sel.(notTags := sel.notTags + ts))
    decreases |ts|
  {
    hide Run, HasAt;
    if ts == [] {
      assert sel.notTags + ts == sel.notTags;
      AtStart(s, i);
    } else {
      var rest := Wrapped(":not(", ts[1..], ")");
      assert Wrapped(":not(", ts, ")") == (":not(" + (ts[0] + ")")) + rest;
      HasBoth(s, i, ":not(" + (ts[0] + ")"), rest);
      NotTagParses(s, i, ts[0], sel);
      NotTagsParse(s, i + |ts[0]| + 6, ts[1..], WithTag(sel, true, ts[0]));
      assert sel.notTags + [ts[0]] + ts[1..] == sel.notTags + ts;
    }
  }

  lemma NotAttributeParses(s: Text, i: nat, a: Text, sel: Selector)
    requires HasAt(s, i, ":not([" + (a + "])")) && AttributeText(a)
    ensures var k := i + |a| + 8;
            k <= |s| && Run(s, i, Base, "", false, sel) == Run(s, k, Base, "", false, WithAttribute(sel, true, a))
  {
    hide Run;
    assert ":not([" + (a + "])") == ":not(" + (("[" + (a + "]")) + ")");
    HasBoth(s, i, ":not(", ("[" + (a + "]")) + ")");
    HasBoth(s, i + 5, "[" + (a + "]"), ")");
    LastChar(s, i + 7 + |a|, ")");
    NotOpens(s, i, sel);
    AttributeParses(s, i + 5, a, true, sel);
    NotCloses(s, i + 7 + |a|, WithAttribute(sel, true, a));
  }

  lemma {:induction false} NotAttributesParse(s: Text, i: nat, ts: seq<Text>, sel: Selector)
    requires HasAt(s, i, Wrapped(":not([", ts, "])")) && forall t <- ts :: AttributeText(t)
    ensures var k := i + |Wrapped(":not([", ts, "])")|;
            k <= |s| && Run(s, i, Base, "", false, sel) ==
                Run(s, k, Base, "", false, sel.(notAttributes := sel.notAttributes + ts))
    decreases |ts|
  {
    hide Run, HasAt;
    if ts == [] {
      assert sel.notAttributes + ts == sel.notAttributes;
      AtStart(s, i);
    } else {
      var rest := Wrapped(":not([", ts[1..], "])");
      assert Wrapped(":not([", ts, "])") == (":not([" + (ts[0] + "])")) + rest;
      HasBoth(s, i, ":not([" + (ts[0] + "])"), rest);
      NotAttributeParses(s, i, ts[0], sel);
      NotAttributesParse(s, i + |ts[0]| + 8, ts[1..], WithAttribute(sel, true, ts[0]));
      assert sel.notAttributes + [ts[0]] + ts[1..] == sel.notAttributes + ts;
    }
  }

  /** A tag in front, at the end of the text or before a bracket or colon. */
  lemma FirstTag(s: Text, t: Text)
    requires HasAt(s, 0, t) && (t != "" ==> Name(t)) && (|t| < |s| ==> !IsIdentifierChar(s[|t|]))
    ensures |t| <= |s|
    ensures Parse(s) == if |t| == |s| then Parsed(EMPTY.(tag := t)) else Run(s, |t|, Base, "", false, EMPTY.(tag := t))
  {
    if t != "" {
      LastChar(s, 0, t);
      TagRuns(s, 0, t, "", false, EMPTY);
      assert "" + t == t;
    }
  }

  lemma WrappedStart(open: Text, ts: seq<Text>, close: Text)
    requires open != ""
    ensures if ts == [] then Wrapped(open, ts, close) == ""
              else Wrapped(open, ts, close) != "" && Wrapped(open, ts, close)[0] == open[0]
  {
  }

  /** Behind the tag comes nothing, a bracket or a colon. */
  lemma BehindTag(tag: Text, a: Text, t: Text, n: Text)
    requires (a != "" ==> a[0] == '[') && (t != "" ==> t[0] == ':') && (n != "" ==> n[0] == ':')
    ensures var s := tag + (a + (t + n)); |tag| < |s| ==> s[|tag|] == '[' || s[|tag|] == ':'
  {
  }

  /** Everything behind the tag. */
  lemma RestParses(s: Text, i: nat, sel: Selector)
    requires Valid(sel)
    requires var rest := Wrapped("[", sel.attributes, "]")
              + (Wrapped(":not(", sel.notTags, ")") + Wrapped(":not([", sel.notAttributes, "])"));
             HasAt(s, i, rest) && i + |rest| == |s|
    ensures Run(s, i, Base, "", false, EMPTY.(tag := sel.tag)) == Parsed(sel)
  {
    hide Wrapped, Run, HasAt;
    var a, t, n := Wrapped("[", sel.attributes, "]"), Wrapped(":not(", sel.notTags, ")"),
        Wrapped(":not([", sel.notAttributes, "])");
    HasBoth(s, i, a, t + n);
    HasBoth(s, i + |a|, t, n);
    AttributesParse(s, i, sel.attributes, EMPTY.(tag := sel.tag));
    assert [] + sel.attributes == sel.attributes && [] + sel.notTags == sel.notTags
        && [] + sel.notAttributes == sel.notAttributes;
    NotTagsParse(s, i + |a|, sel.notTags, Selector(sel.tag, sel.attributes, [], []));
    NotAttributesParse(s, i + |a| + |t|, sel.notAttributes, Selector(sel.tag, sel.attributes, sel.notTags, []));
    AtEnd(s, sel);
  }

  /** Round trip: the printed form of a selector is parsed into the same selector. */
  lemma RoundTrip(sel: Selector)
    requires Valid(sel)
    ensures Parse(Print(sel)) == Parsed(sel)
  {
    hide Wrapped, Run, HasAt;
    var s := Print(sel);
    var a, t, n := Wrapped("[", sel.attributes, "]"), Wrapped(":not(", sel.notTags, ")"),
        Wrapped(":not([", sel.notAttributes, "])");
    WrappedStart("[", sel.attributes, "]");
    WrappedStart(":not(", sel.notTags, ")");
    WrappedStart(":not([", sel.notAttributes, "])");
    BehindTag(sel.tag, a, t, n);
    assert HasAt(s, 0, s) by { Whole(s); }
    HasBoth(s, 0, sel.tag, a + (t + n));
    FirstTag(s, sel.tag);
    if |sel.tag| == |s| {
      assert a == "" && t == "" && n == "";
    } else {
      RestParses(s, |sel.tag|, sel);
    }
  }

  lemma Whole(s: Text)
    ensures HasAt(s, 0, s)
  {
  }

  lemma AtEnd(s: Text, sel: Selector)
    ensures Run(s, |s|, Base, "", false, sel) == Parsed(sel)
  {
  }
}
