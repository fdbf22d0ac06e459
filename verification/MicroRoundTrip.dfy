/** Printing microsyntax statements and parsing them again. */
module MicroRoundTrip {
  import opened Options
  import opened MicroExpression
  import opened Microsyntax
  import opened Texts

  /** A statement as written.  A key may have a colon; a `let` may be `bare`, with no more
      than a blank before the next statement. */
  datatype Written =
    | WrittenExpression(text: Text, local: Option<Text>)
    | WrittenKey(key: Text, colon: bool, text: Text, local: Option<Text>)
    | WrittenLet(variable: Text, export_: Option<Text>, bare: bool)

  function PrintLocal(local: Option<Text>): Text {
    if local.Some? then " as " + local.value else ""
  }

  function Print(w: Written): Text {
    match w
    case WrittenExpression(text, local) => text + PrintLocal(local)
    case WrittenKey(key, colon, text, local) => key + (Mark(colon) + (text + PrintLocal(local)))
    case WrittenLet(variable, export_, _) => "let " + (variable + if export_.Some? then " = " + export_.value else "")
  }

  function Mark(colon: bool): Text {
    if colon then ": " else " "
  }

  /** A semicolon or a comma. */
  predicate IsDelimiter(d: char) {
    d == ';' || d == ','
  }

  /** What stands between a statement and the next one. */
  function Gap(w: Written, d: char): (r: Text)
    ensures |r| == GapSize(w)
  {
    if GapSize(w) == 1 then " " else [d, ' ']
  }

  function GapSize(w: Written): nat {
    if w.WrittenLet? && w.bare then 1 else 2
  }

  function PrintAll(ws: seq<Written>, d: char): Text
    decreases |ws|
  {
    if ws == [] then ""
    else if |ws| == 1 then Print(ws[0])
    else Print(ws[0]) + (Gap(ws[0], d) + PrintAll(ws[1..], d))
  }

  function LocateLocal(local: Option<Text>, offset: nat): Option<Named> {
    if local.Some? then Some(Named(local.value, offset)) else None
  }

  /** The statement that ought to be parsed when `w` is printed at `offset`. */
  function Locate(w: Written, offset: nat): Statement {
    match w
    case WrittenExpression(text, local) =>
      Expression(Named(text, offset), LocateLocal(local, offset + |text| + 4))
    case WrittenKey(key, colon, text, local) =>
      var x := offset + |key| + |Mark(colon)|;
      KeyExp(Named(key, offset), Named(text, x), LocateLocal(local, x + |text| + 4))
    case WrittenLet(variable, export_, _) =>
      Let(Named(variable, offset + 4), LocateLocal(export_, offset + 4 + |variable| + 3))
  }

  function LocateAll(ws: seq<Written>, offset: nat): seq<Statement>
    decreases |ws|
  {
    if ws == [] then []
    else [Locate(ws[0], offset)] + LocateAll(ws[1..], offset + |Print(ws[0])| + GapSize(ws[0]))
  }

  // ----- what may be written -----

  predicate Word(w: Text) {
    w != "" && !IsNumber(w[0]) && forall c <- w :: IsJsIdentifierChar(c)
  }

  /** The scan reads the rest of `t` to its end and closes every bracket.  No quote is
      in it then, for a quote is never closed. */
  predicate CompleteFrom(t: Text, i: nat, stack: seq<char>)
    requires i <= |t|
  {
    ScanFrom(t, i, stack) == At(|t|) && FoldAll(stack, t[i..]) == []
  }

  /** An expression that is read to its end when it stands alone. */
  predicate Complete(t: Text) {
    t != "" && CompleteFrom(t, 0, []) && !IsOperator(t[|t| - 1])
  }

  /** At most two unary operators in front, and not the keyword `let`. */
  predicate StartsExpression(t: Text) {
    && !(|t| >= 3 && IsUnary(t[0]) && IsUnary(t[1]) && IsUnary(t[2]))
    && t[..IdentifierEnd(t, 0, true)] != "let"
  }

  predicate NameOf(w: Text) {
    Word(w) && w != "let" && w != "as"
  }

  predicate LocalOf(local: Option<Text>) {
    local.Some? ==> Word(local.value)
  }

  /** The first statement is an expression or a `let`; later ones are a `let`, a keyed
      expression, or a name with a local. */
  predicate Valid(w: Written, first: bool) {
    match w
    case WrittenExpression(text, local) =>
      LocalOf(local) && Complete(text) && (if first then StartsExpression(text) else NameOf(text) && local.Some?)
    case WrittenKey(key, colon, text, local) =>
      && !first && NameOf(key) && '$' !in key && Complete(text) && LocalOf(local)
      && (colon || (text != "as" && text[0] != ':'))
    case WrittenLet(variable, export_, _) => Word(variable) && LocalOf(export_)
  }

  predicate ValidAll(ws: seq<Written>, first: bool)
    decreases |ws|
  {
    ws != [] ==> Valid(ws[0], first) && ValidAll(ws[1..], false)
  }

  // ----- reading pieces of a text -----

  /** A complete expression is read in the same way wherever it stands. */
  lemma CompleteScan(s: Text, p: nat, t: Text)
    requires HasAt(s, p, t) && CompleteFrom(t, 0, []) && Stops(s, p + |t|)
    ensures ScanFrom(s, p, []) == At(p + |t|)
  {
    ScanAlong(s, p, t, 0, []);
  }

  lemma {:induction false} ScanAlong(s: Text, p: nat, t: Text, i: nat, stack: seq<char>)
    requires HasAt(s, p, t) && i <= |t| && CompleteFrom(t, i, stack) && Stops(s, p + |t|)
    ensures ScanFrom(s, p + i, stack) == At(p + |t|)
    decreases |t| - i
  {
    hide HasAt, Stops, ScanFrom, Fold, CompleteFrom, LookAhead;
    if i == |t| {
      CompleteEnds(s, p, t, stack);
    } else {
      HasAtChar(s, p, t, i);
      if stack == [] && t[i] == ' ' {
        BlankAlong(s, p, t, i);
        ScanAlong(s, p, t, LookAhead(t, i).index, []);
      } else {
        StepAlong(s, p, t, i, stack);
        ScanAlong(s, p, t, i + 1, Fold(stack, t[i]));
      }
    }
  }

  lemma CompleteEnds(s: Text, p: nat, t: Text, stack: seq<char>)
    requires CompleteFrom(t, |t|, stack) && Stops(s, p + |t|)
    ensures p + |t| <= |s| && ScanFrom(s, p + |t|, stack) == At(p + |t|)
  {
    assert t[|t|..] == "" && stack == [];
  }

  lemma StepAlong(s: Text, p: nat, t: Text, i: nat, stack: seq<char>)
    requires i < |t| && CompleteFrom(t, i, stack) && p + i < |s| && s[p + i] == t[i]
    requires stack != [] || t[i] != ' '
    ensures CompleteFrom(t, i + 1, Fold(stack, t[i]))
    ensures ScanFrom(s, p + i, stack) == ScanFrom(s, p + i + 1, Fold(stack, t[i]))
  {
    hide LookAhead, IsOperator, IsJsIdentifierChar;
    assert t[i..][1..] == t[i + 1..];
  }

  lemma BlankAlong(s: Text, p: nat, t: Text, i: nat)
    requires HasAt(s, p, t) && i < |t| && t[i] == ' ' && CompleteFrom(t, i, [])
    ensures LookAhead(t, i).Continue? && CompleteFrom(t, LookAhead(t, i).index, [])
    ensures p + i < |s| && s[p + i] == ' ' && ScanFrom(s, p + i, []) == ScanFrom(s, p + LookAhead(t, i).index, [])
  {
    hide HasAt, LookAhead, ScanFrom, FoldAll;
    BlankScan(t, i);
    var k := LookAhead(t, i).index;
    SkippedIsPlain(t, i);
    assert t[i..] == t[i..k] + t[k..];
    FoldTwo([], t[i..k], t[k..]);
    LookAlong(s, p, t, i);
    BlankScan(s, p + i);
  }

  lemma BlankScan(s: Text, i: nat)
    requires i < |s| && s[i] == ' '
    ensures ScanFrom(s, i, []) == match LookAhead(s, i)
                                  case Break => At(i)
                                  case PanicAhead => Panic
                                  case Continue(k) => ScanFrom(s, k, [])
  {
    hide LookAhead;
  }

  /** What is looked at lies inside the expression. */
  lemma LookAlong(s: Text, p: nat, t: Text, i: nat)
    requires HasAt(s, p, t) && i < |t| && t[i] == ' ' && LookAhead(t, i).Continue?
    ensures p + i < |s| && s[p + i] == ' ' && LookAhead(s, p + i) == Continue(p + LookAhead(t, i).index)
  {
    hide IsOperator, IsJsIdentifierChar, SkipBlanks;
    forall k | 0 <= k < |t|
      ensures p + k < |s| && s[p + k] == t[k]
    {
      HasAtChar(s, p, t, k);
    }
    hide HasAt;
    var next := SkipBlanks(t, i + 1);
    BlanksAt(s, p + i + 1, p + next);
    if IsOperator(t[next]) {
      BlanksAt(s, p + next + 1, p + SkipBlanks(t, next + 1));
    }
  }

  /** A complete expression that ends before `k` stops there: at the end, at a delimiter,
      or at one blank before a word. */
  predicate Stops(s: Text, k: nat) {
    k == |s| ||
    (k < |s| && IsDelimiter(s[k])) ||
    (0 < k && k + 1 < |s| && s[k] == ' ' && !IsOperator(s[k - 1]) && IsJsIdentifierChar(s[k + 1]))
  }

  lemma WordEnds(s: Text, i: nat, w: Text, js: bool)
    requires HasAt(s, i, w) && Word(w) && (js || '$' !in w)
    requires i + |w| == |s| || !IsIdentifierChar(s[i + |w|], js)
    ensures Identifier(s, i, js) == Took(i + |w|) && s[i..i + |w|] == w
  {
    forall k | i <= k < i + |w|
      ensures IsIdentifierChar(s[k], js)
    {
      HasAtChar(s, i, w, k - i);
      assert w[k - i] in w;
    }
    HasAtChar(s, i, w, 0);
  }

  // ----- one statement -----

  /** What comes behind a statement: nothing, or a delimiter, a blank and the next one,
      which is neither blank nor the keyword `as`. */
  predicate Followed(s: Text, k: nat) {
    k == |s| || (k + 2 < |s| && IsDelimiter(s[k]) && s[k + 1] == ' ' && s[k + 2] !in " ;," && !HasAt(s, k + 2, "as "))
  }

  /** Where the parser stands once the delimiter is gone. */
  function Behind(s: Text, k: nat): nat {
    if k == |s| then k else k + 1
  }

  lemma {:induction false} BlanksAt(s: Text, i: nat, n: nat)
    requires i <= n <= |s| && (forall k :: i <= k < n ==> s[k] == ' ') && (n < |s| ==> s[n] != ' ')
    ensures SkipBlanks(s, i) == n
    decreases n - i
  {
    if i < n {
      BlanksAt(s, i + 1, n);
    }
  }

  /** ` as x` behind position `k`. */
  lemma LocalAt(s: Text, k: nat, local: Text)
    requires HasAt(s, k, " as " + local) && Word(local)
    ensures k + 4 + |local| <= |s| && s[k] == ' ' && s[k + 1] == 'a' && HasAt(s, k + 1, "as ") && HasAt(s, k + 1, "as")
    ensures HasAt(s, k + 4, local) && s[k + 4] == local[0] && s[k + 4] != ' '
  {
    HasBoth(s, k, " as ", local);
    HasBoth(s, k, " ", "as ");
    HasBoth(s, k + 1, "as", " ");
    HasAtChar(s, k, " as ", 0);
    HasAtChar(s, k, " as ", 1);
    HasAtChar(s, k + 4, local, 0);
    assert local[0] in local;
  }

  /** The end of the text, a blank, a colon or a delimiter. */
  predicate WordStop(s: Text, k: nat) {
    k == |s| || (k < |s| && (s[k] in " :" || IsDelimiter(s[k])))
  }

  /** A word that ends there. */
  lemma WordStopsAt(s: Text, i: nat, w: Text)
    requires HasAt(s, i, w) && Word(w) && WordStop(s, i + |w|)
    ensures Identifier(s, i, true) == Took(i + |w|) && s[i..i + |w|] == w
  {
    WordEnds(s, i, w, true);
  }

  /** `let` and the variable. */
  lemma LetStarts(s: Text, i: nat, ss: seq<Statement>, v: Text)
    requires Word(v) && HasAt(s, i, "let " + v)
    requires WordStop(s, i + 4 + |v|)
    ensures i < |s| && i + 4 + |v| <= |s| && LetTurn(s, i, ss) == LetExport(s, Named(v, i + 4), i + 4 + |v|, ss)
  {
    hide Identifier, HasAt, LetExport;
    HasBoth(s, i, "let ", v);
    LastChar(s, i, "let ");
    LastChar(s, i + 4, v);
    WordStopsAt(s, i + 4, v);
  }

  /** Behind a bare `let` stands a blank and the next statement. */
  predicate FollowedBare(s: Text, k: nat) {
    k + 1 < |s| && s[k] == ' ' && s[k + 1] !in " ;,="
  }

  predicate FollowedAs(s: Text, k: nat, bare: bool) {
    Followed(s, k) || (bare && FollowedBare(s, k))
  }

  lemma LetAlone(s: Text, variable: Named, l: nat, ss: seq<Statement>, bare: bool)
    requires FollowedAs(s, l, bare)
    ensures l <= |s| && LetExport(s, variable, l, ss) ==
            Go(if Followed(s, l) then Behind(s, l) else l + 1, Base, ss + [Let(variable, None)])
  {
    hide SkipBlanks, HasAt;
    if Followed(s, l) { BlanksAt(s, l, l); } else { BlanksAt(s, l, l + 1); }
  }

  lemma LetExported(s: Text, variable: Named, l: nat, ss: seq<Statement>, x: Text, bare: bool)
    requires HasAt(s, l, " = " + x) && Word(x) && FollowedAs(s, l + 3 + |x|, bare)
    ensures var k := l + 3 + |x|;
      l < |s| && LetExport(s, variable, l, ss) ==
            Go(if Followed(s, k) then Behind(s, k) else k, Base, ss + [Let(variable, Some(Named(x, l + 3)))])
  {
    hide SkipBlanks, Identifier, HasAt, IsJsIdentifierChar, IsNumber, Word;
    HasBoth(s, l, " = ", x);
    NotEmpty(x);
    LastChar(s, l, " = ");
    HasAtChar(s, l, " = ", 1);
    LastChar(s, l + 3, x);
    WordStart(x);
    BlanksAt(s, l, l + 1);
    BlanksAt(s, l + 2, l + 3);
    WordStopsAt(s, l + 3, x);
  }

  lemma NotEmpty(w: Text)
    requires Word(w)
    ensures w != ""
  {
  }

  lemma WordStart(w: Text)
    requires Word(w) && w != ""
    ensures w[0] != ' ' && IsJsIdentifierChar(w[0]) && !IsUnary(w[0]) && w[0] != ';' && w[0] != ','
  {
    assert w[0] in w;
  }

  /** Where the parser stands behind a `let` that ends at `k`. */
  function AfterLet(s: Text, k: nat, w: Written): nat
    requires w.WrittenLet?
  {
    if Followed(s, k) then Behind(s, k) else if w.export_.Some? then k else k + 1
  }

  lemma LetParses(s: Text, i: nat, ss: seq<Statement>, w: Written)
    requires w.WrittenLet? && Valid(w, ss == []) && HasAt(s, i, Print(w)) && i < |s|
    requires FollowedAs(s, i + |Print(w)|, w.bare)
    ensures var k := i + |Print(w)|; LetTurn(s, i, ss) == Go(AfterLet(s, k, w), Base, ss + [Locate(w, i)])
  {
    hide LetTurn, HasAt, Word, LetExport, Followed, FollowedAs;
    if w.export_.Some? {
      LetWithExport(s, i, ss, w.variable, w.export_.value, w.bare);
    } else {
      LetWithout(s, i, ss, w.variable, w.bare);
    }
  }

  lemma LetPrints(v: Text, x: Option<Text>, bare: bool, i: nat)
    ensures var w := WrittenLet(v, x, bare); var l := i + 4 + |v|;
      && Print(w) == ("let " + v) + (if x.Some? then " = " + x.value else "")
      && Locate(w, i) == Let(Named(v, i + 4), if x.Some? then Some(Named(x.value, l + 3)) else None)
  {
    if x.Some? {
      Associates("let ", v, " = " + x.value);
    }
    assert v + "" == v && "let " + v + "" == "let " + v;
  }

  lemma LetWithExport(s: Text, i: nat, ss: seq<Statement>, v: Text, x: Text, bare: bool)
    requires Word(v) && Word(x) && HasAt(s, i, Print(WrittenLet(v, Some(x), bare)))
    requires FollowedAs(s, i + |Print(WrittenLet(v, Some(x), bare))|, bare)
    ensures var w := WrittenLet(v, Some(x), bare);
            LetTurn(s, i, ss) == Go(AfterLet(s, i + |Print(w)|, w), Base, ss + [Locate(w, i)])
  {
    hide LetTurn, HasAt, Word, LetExport, Followed, FollowedAs, Print, Locate;
    var l := i + 4 + |v|;
    LetPrints(v, Some(x), bare, i);
    HasBoth(s, i, "let " + v, " = " + x);
    LastChar(s, l, " = " + x);
    LetStarts(s, i, ss, v);
    LetExported(s, Named(v, i + 4), l, ss, x, bare);
  }

  lemma LetWithout(s: Text, i: nat, ss: seq<Statement>, v: Text, bare: bool)
    requires Word(v) && HasAt(s, i, Print(WrittenLet(v, None, bare)))
    requires FollowedAs(s, i + |Print(WrittenLet(v, None, bare))|, bare)
    ensures var w := WrittenLet(v, None, bare);
            LetTurn(s, i, ss) == Go(AfterLet(s, i + |Print(w)|, w), Base, ss + [Locate(w, i)])
  {
    hide LetTurn, HasAt, Word, LetExport, Print, Locate;
    var l := i + 4 + |v|;
    LetPrints(v, None, bare, i);
    assert "let " + v + "" == "let " + v;
    LetStarts(s, i, ss, v);
    LetAlone(s, Named(v, i + 4), l, ss, bare);
  }

  lemma ExpressionAlone(s: Text, i: nat, ss: seq<Statement>, t: Text)
    requires Complete(t) && HasAt(s, i, t) && Followed(s, i + |t|)
    ensures i < |s| && ExpressionTurn(s, i, ss) == Go(Behind(s, i + |t|), Base, ss + [Expression(Named(t, i), None)])
  {
    hide ScanFrom, SkipBlanks, Identifier, HasAt, CompleteFrom, IsOperator;
    LastChar(s, i, t);
    CompleteScan(s, i, t);
    BlanksAt(s, i + |t|, i + |t|);
  }

  /** What the parser reads of an expression with a local variable, step by step. */
  lemma LocalRead(s: Text, i: nat, t: Text, x: Text)
    requires Complete(t) && Word(x) && HasAt(s, i, t + (" as " + x)) && Followed(s, i + |t| + 4 + |x|)
    ensures var e := i + |t|; var l := e + 4 + |x|;
      && i < |s| && l <= |s| && s[i..e] == t && s[e + 4..l] == x && ScanFrom(s, i, []) == At(e)
      && SkipBlanks(s, e) == e + 1 && s[e + 1] == 'a' && HasAt(s, e + 1, "as")
      && SkipBlanks(s, e + 3) == e + 4 && Identifier(s, e + 4, true) == Took(l)
      && Delimiter(s, l) == Behind(s, l)
  {
    hide ScanFrom, SkipBlanks, Identifier, HasAt, CompleteFrom, IsOperator, IsJsIdentifierChar, Word;
    HasBoth(s, i, t, " as " + x);
    NotEmpty(x);
    var e := i + |t|;
    LastChar(s, i, t);
    AIsLetter();
    LocalAt(s, e, x);
    LastChar(s, e + 1, "as ");
    WordStart(x);
    CompleteScan(s, i, t);
    BlanksAt(s, e, e + 1);
    BlanksAt(s, e + 3, e + 4);
    WordStops(s, e + 4, x);
  }

  lemma ExpressionLocal(s: Text, i: nat, ss: seq<Statement>, t: Text, x: Text)
    requires Complete(t) && Word(x) && HasAt(s, i, t + (" as " + x)) && Followed(s, i + |t| + 4 + |x|)
    ensures i < |s| && ExpressionTurn(s, i, ss) ==
            Go(Behind(s, i + |t| + 4 + |x|), Base, ss + [Expression(Named(t, i), Some(Named(x, i + |t| + 4)))])
  {
    hide ScanFrom, SkipBlanks, Identifier, HasAt, Complete, Word, Delimiter, Behind, Followed;
    LocalRead(s, i, t, x);
  }

  /** A word that is followed by the end or by a delimiter. */
  lemma WordStops(s: Text, i: nat, w: Text)
    requires HasAt(s, i, w) && Word(w) && Followed(s, i + |w|)
    ensures Identifier(s, i, true) == Took(i + |w|) && s[i..i + |w|] == w
  {
    WordEnds(s, i, w, true);
  }

  lemma ExpressionParses(s: Text, i: nat, ss: seq<Statement>, w: Written)
    requires w.WrittenExpression? && Complete(w.text) && LocalOf(w.local)
    requires HasAt(s, i, Print(w)) && i < |s| && Followed(s, i + |Print(w)|)
    ensures ExpressionTurn(s, i, ss) == Go(Behind(s, i + |Print(w)|), Base, ss + [Locate(w, i)])
  {
    hide ExpressionTurn, HasAt, Followed, Word, Complete;
    if w.local.Some? {
      ExpressionLocal(s, i, ss, w.text, w.local.value);
    } else {
      assert w.text + "" == w.text;
      ExpressionAlone(s, i, ss, w.text);
    }
  }

  /** The key, its colon or none, and the blank behind it. */
  lemma KeyStarts(s: Text, i: nat, ss: seq<Statement>, key: Text, colon: bool, t: Text)
    requires NameOf(key) && '$' !in key && Complete(t) && (colon || t[0] != ':')
    requires HasAt(s, i, key + (Mark(colon) + t)) && Stops(s, i + |key| + |Mark(colon)| + |t|)
    ensures var x := i + |key| + |Mark(colon)|;
            && i < |s| && x + |t| <= |s|
            && KeyTurn(s, i, ss) == KeyLocal(s, Named(key, i), Named(t, x), x + |t|, ss)
  {
    hide ScanFrom, SkipBlanks, Identifier, HasAt, CompleteFrom, IsOperator, IsJsIdentifierChar, KeyLocal, Stops, NameOf;
    var b := i + |key|;
    var x := b + |Mark(colon)|;
    KeyRead(s, i, key, Mark(colon) + t);
    CompleteStart(t);
    KeyMark(s, b, colon, t);
    LastChar(s, x, t);
    CompleteScan(s, x, t);
  }

  /** From the end of a key over its mark to the expression. */
  lemma KeyMark(s: Text, b: nat, colon: bool, t: Text)
    requires t != "" && t[0] != ' ' && (colon || t[0] != ':') && HasAt(s, b, Mark(colon) + t)
    ensures var x := b + |Mark(colon)|; x < |s| && HasAt(s, x, t)
    ensures var j := SkipBlanks(s, b);
            j < |s| && SkipBlanks(s, if s[j] == ':' then j + 1 else j) == b + |Mark(colon)|
  {
    hide SkipBlanks, HasAt;
    var x := b + |Mark(colon)|;
    HasBoth(s, b, Mark(colon), t);
    LastChar(s, b, Mark(colon));
    LastChar(s, x, t);
    BlanksAt(s, b, if colon then b else x);
    BlanksAt(s, if colon then b + 1 else x, x);
  }

  lemma KeyRead(s: Text, i: nat, key: Text, more: Text)
    requires NameOf(key) && '$' !in key && more != "" && more[0] in " :" && HasAt(s, i, key + more)
    ensures var b := i + |key|;
      i < |s| && b < |s| && s[i..b] == key && HasAt(s, b, more) && Identifier(s, i, false) == Took(b)
  {
    hide Identifier, HasAt, IsJsIdentifierChar;
    HasBoth(s, i, key, more);
    LastChar(s, i, key);
    LastChar(s, i + |key|, more);
    WordEnds(s, i, key, false);
  }

  lemma KeyLocalParses(s: Text, key: Named, expression: Named, e: nat, ss: seq<Statement>, x: Text)
    requires HasAt(s, e, " as " + x) && Word(x) && Followed(s, e + 4 + |x|)
    ensures e < |s| && KeyLocal(s, key, expression, e, ss) ==
            Go(Behind(s, e + 4 + |x|), Base, ss + [KeyExp(key, expression, Some(Named(x, e + 4)))])
  {
    hide SkipBlanks, Identifier, HasAt, IsJsIdentifierChar, IsNumber, Word;
    NotEmpty(x);
    LocalAt(s, e, x);
    BlanksAt(s, e + 1, e + 1);
    BlanksAt(s, e + 4, e + 4);
    WordStopsAt(s, e + 4, x);
  }

  lemma KeyPlainParses(s: Text, key: Named, expression: Named, e: nat, ss: seq<Statement>)
    requires Followed(s, e)
    ensures e <= |s| && KeyLocal(s, key, expression, e, ss) ==
            Go(if e == |s| then e + 1 else e + 2, Base, ss + [KeyExp(key, expression, None)])
  {
    hide SkipBlanks, HasAt;
    if e < |s| {
      BlanksAt(s, e + 1, e + 2);
    }
  }

  lemma KeyWithLocal(s: Text, i: nat, ss: seq<Statement>, key: Text, colon: bool, t: Text, x: Text)
    requires NameOf(key) && '$' !in key && Complete(t) && (colon || t[0] != ':') && Word(x)
    requires HasAt(s, i, (key + (Mark(colon) + t)) + (" as " + x))
    requires Followed(s, i + |key| + |Mark(colon)| + |t| + 4 + |x|)
    ensures var from := i + |key| + |Mark(colon)|;
            var e := from + |t|;
            i < |s| && KeyTurn(s, i, ss) ==
            Go(Behind(s, e + 4 + |x|), Base, ss + [KeyExp(Named(key, i), Named(t, from), Some(Named(x, e + 4)))])
  {
    hide KeyLocal, HasAt, KeyTurn, Word, Complete, NameOf, Followed;
    var from := i + |key| + |Mark(colon)|;
    var e := from + |t|;
    var head := key + (Mark(colon) + t);
    HasBoth(s, i, head, " as " + x);
    NotEmpty(x);
    LocalAt(s, e, x);
    StopsBeforeAs(s, i, head, t);
    KeyStarts(s, i, ss, key, colon, t);
    KeyLocalParses(s, Named(key, i), Named(t, from), e, ss, x);
  }

  lemma KeyAlone(s: Text, i: nat, ss: seq<Statement>, key: Text, colon: bool, t: Text)
    requires NameOf(key) && '$' !in key && Complete(t) && (colon || t[0] != ':')
    requires HasAt(s, i, key + (Mark(colon) + t)) && Followed(s, i + |key| + |Mark(colon)| + |t|)
    ensures var from := i + |key| + |Mark(colon)|;
            var e := from + |t|;
            i < |s| && KeyTurn(s, i, ss) ==
            Go(if e == |s| then e + 1 else e + 2, Base, ss + [KeyExp(Named(key, i), Named(t, from), None)])
  {
    hide KeyLocal, HasAt, KeyTurn, Word, Complete, NameOf;
    var from := i + |key| + |Mark(colon)|;
    KeyStarts(s, i, ss, key, colon, t);
    KeyPlainParses(s, Named(key, i), Named(t, from), from + |t|, ss);
  }

  /** Where the parser goes on behind a key that ends at `k`. */
  function AfterKey(s: Text, k: nat, w: Written): nat
    requires w.WrittenKey?
  {
    if w.local.Some? then Behind(s, k) else if k == |s| then k + 1 else k + 2
  }

  lemma KeyParses(s: Text, i: nat, ss: seq<Statement>, w: Written)
    requires w.WrittenKey? && Valid(w, false) && HasAt(s, i, Print(w)) && i < |s| && Followed(s, i + |Print(w)|)
    ensures var k := i + |Print(w)|;
            KeyTurn(s, i, ss) == Go(AfterKey(s, k, w), Base, ss + [Locate(w, i)])
  {
    hide KeyLocal, HasAt, KeyTurn, Word, Complete, NameOf, Followed;
    if w.local.Some? {
      assert Print(w) == (w.key + (Mark(w.colon) + w.text)) + (" as " + w.local.value);
      KeyWithLocal(s, i, ss, w.key, w.colon, w.text, w.local.value);
    } else {
      assert w.text + "" == w.text;
      KeyAlone(s, i, ss, w.key, w.colon, w.text);
    }
  }

  lemma StopsBeforeAs(s: Text, i: nat, head: Text, t: Text)
    requires HasAt(s, i, head) && Complete(t) && |t| <= |head| && head[|head| - |t|..] == t
    requires i + |head| + 1 < |s| && s[i + |head|] == ' ' && s[i + |head| + 1] == 'a'
    ensures Stops(s, i + |head|)
  {
    LastChar(s, i, head);
    assert head[|head| - 1] == t[|t| - 1];
  }

  lemma AIsLetter()
    ensures IsJsIdentifierChar('a')
  {
  }

  lemma CompleteStart(t: Text)
    requires Complete(t)
    ensures t[0] != ' ' && t[0] != ';' && t[0] != ','
  {
  }

  // ----- what the base state decides -----

  lemma BaseLet(s: Text, i: nat, ss: seq<Statement>)
    requires HasAt(s, i, "let ")
    ensures i < |s| && BaseTurn(s, i, ss) == Go(i, LetState, ss)
  {
    hide HasAt, ScanFrom;
    assert "let" + " " == "let ";
    HasBoth(s, i, "let", " ");
    LastChar(s, i, "let ");
    LastChar(s, i, "let");
    WordStopsAt(s, i, "let");
  }

  lemma {:induction false} UnaryFine(s: Text, i: nat, t: Text, n: nat)
    requires HasAt(s, i, t) && t != "" && !IsOperator(t[|t| - 1]) && n <= 2
    requires |t| >= 3 - n ==> !(forall k :: 0 <= k < 3 - n ==> IsUnary(t[k]))
    ensures i < |s| && UnaryEnd(s, i, n).Took?
    decreases |t|
  {
    LastChar(s, i, t);
    if IsUnary(t[0]) {
      assert t == [t[0]] + t[1..];
      HasBoth(s, i, [t[0]], t[1..]);
      if n < 2 {
        UnaryFine(s, i + 1, t[1..], n + 1);
      }
    }
  }

  /** The identifier an expression begins with ends inside the expression. */
  lemma LeadingWord(s: Text, i: nat, t: Text)
    requires HasAt(s, i, t) && t != "" && WordStop(s, i + |t|)
    ensures i < |s| && IdentifierEnd(s, i, true) == i + IdentifierEnd(t, 0, true)
    ensures s[i..IdentifierEnd(s, i, true)] == t[..IdentifierEnd(t, 0, true)]
  {
    var m := IdentifierEnd(t, 0, true);
    LastChar(s, i, t);
    forall k | i <= k < i + m
      ensures IsIdentifierChar(s[k], true)
    {
      HasAtChar(s, i, t, k - i);
    }
    if m < |t| {
      HasAtChar(s, i, t, m);
    }
    IdentifierEndsAt(s, i, i + m);
    assert s[i..i + |t|][..m] == s[i..i + m];
  }

  lemma {:induction false} IdentifierEndsAt(s: Text, i: nat, n: nat)
    requires i <= n <= |s| && (forall k :: i <= k < n ==> IsIdentifierChar(s[k], true))
    requires n == |s| || !IsIdentifierChar(s[n], true)
    ensures IdentifierEnd(s, i, true) == n
    decreases n - i
  {
    if i < n {
      IdentifierEndsAt(s, i + 1, n);
    }
  }

  lemma BaseFirst(s: Text, i: nat, t: Text)
    requires HasAt(s, i, t) && Complete(t) && StartsExpression(t) && WordStop(s, i + |t|)
    ensures i < |s| && BaseTurn(s, i, []) == Go(i, ExpressionState, [])
  {
    hide HasAt, ScanFrom, CompleteFrom, IdentifierEnd, UnaryEnd, IsOperator;
    LastChar(s, i, t);
    CompleteStart(t);
    UnaryFine(s, i, t, 0);
    LeadingWord(s, i, t);
    if Identifier(s, i, true).Took? {
      FirstOfIdentifier(s, i);
    }
  }

  lemma FirstOfIdentifier(s: Text, i: nat)
    requires i < |s| && Identifier(s, i, true).Took?
    ensures Identifier(s, i, true).index == IdentifierEnd(s, i, true)
  {
  }

  lemma NameFacts(w: Text)
    requires NameOf(w)
    ensures Word(w) && w != "" && w != "let" && w != "as" && !IsUnary(w[0])
  {
    WordStart(w);
  }

  lemma UnaryNone(s: Text, i: nat)
    requires i < |s| && !IsUnary(s[i])
    ensures UnaryEnd(s, i, 0) == Took(i)
  {
  }

  lemma BaseDecides(s: Text, i: nat, ss: seq<Statement>, m: nat, j: nat, e: nat)
    requires i < |s| && s[i] != ' ' && ss != [] && UnaryEnd(s, i, 0) == Took(i)
    requires Identifier(s, i, true) == Took(m) && s[i..m] != "let" && SkipBlanks(s, m) == j < |s| && s[j] != ':'
    requires ScanFrom(s, j, []) == At(e)
    ensures BaseTurn(s, i, ss) == Go(i, if j < |s| - 1 && s[j..e] == "as" then ExpressionState else KeyExpState, ss)
  {
    hide ScanFrom, Identifier, SkipBlanks, UnaryEnd;
  }

  /** What the base state reads of a word and a blank. */
  lemma WordAndBlank(s: Text, i: nat, w: Text, t: Text)
    requires NameOf(w) && HasAt(s, i, w + (" " + t)) && t != "" && t[0] != ' '
    ensures var j := i + |w| + 1;
            && j + |t| <= |s| && s[i] == w[0] != ' ' && UnaryEnd(s, i, 0) == Took(i)
            && Identifier(s, i, true) == Took(i + |w|) && s[i..i + |w|] == w && w != "let"
            && SkipBlanks(s, i + |w|) == j && s[j] == t[0] && s[j..j + |t|] == t
  {
    hide HasAt, Identifier, SkipBlanks, UnaryEnd, Word, NameOf, IsJsIdentifierChar;
    HasBoth(s, i, w, " " + t);
    HasBoth(s, i + |w|, " ", t);
    NameFacts(w);
    WordStart(w);
    LastChar(s, i, w);
    UnaryNone(s, i);
    LastChar(s, i + |w|, " ");
    LastChar(s, i + |w| + 1, t);
    WordStopsAt(s, i, w);
    BlanksAt(s, i + |w|, i + |w| + 1);
  }

  /** After the first statement: a word, a blank, and something that is not a colon. */
  lemma BaseLater(s: Text, i: nat, ss: seq<Statement>, w: Text, t: Text)
    requires ss != [] && NameOf(w) && HasAt(s, i, w + (" " + t)) && t != "" && t[0] != ' ' && t[0] != ':'
    requires var j := i + |w| + 1; ScanFrom(s, j, []) == At(j + |t|)
    ensures i < |s| && s[i] == w[0]
    ensures BaseTurn(s, i, ss) == Go(i, if i + |w| + 1 < |s| - 1 && t == "as" then ExpressionState else KeyExpState, ss)
  {
    hide HasAt, ScanFrom, Identifier, SkipBlanks, UnaryEnd, NameOf, BaseTurn;
    WordAndBlank(s, i, w, t);
    BaseDecides(s, i, ss, i + |w|, i + |w| + 1, i + |w| + 1 + |t|);
  }

  /** A turn in the base state and one in the state it chose. */
  lemma TwoTurns(s: Text, i: nat, state: LexState, ss: seq<Statement>, k: nat, more: seq<Statement>)
    requires i < |s| && s[i] != ';' && s[i] != ',' && state != Base && k <= |s| + 1
    requires BaseTurn(s, i, ss) == Go(i, state, ss) && TurnOf(s, i, state, ss) == Go(k, Base, more)
    ensures Run(s, i, Base, ss) == Run(s, k, Base, more)
  {
    hide BaseTurn, LetTurn, ExpressionTurn, KeyTurn, ScanFrom;
    BaseReady(s, i, ss);
    assert Run(s, i, Base, ss) == Run(s, i, state, ss);
  }

  lemma BlankTurn(s: Text, k: nat, ss: seq<Statement>)
    requires k < |s| && s[k] == ' '
    ensures Run(s, k, Base, ss) == Run(s, k + 1, Base, ss)
  {
    hide LetTurn, ExpressionTurn, KeyTurn, ScanFrom;
  }

  /** Parsing goes on behind a printed statement, with the statement recorded. */
  ghost predicate RunsOver(s: Text, i: nat, ss: seq<Statement>, w: Written)
    requires i <= |s|
  {
    var k := i + |Print(w)|;
    Run(s, i, Base, ss) ==
      if k == |s| then Parsed(ss + [Locate(w, i)])
      else if k + GapSize(w) <= |s| then Run(s, k + GapSize(w), Base, ss + [Locate(w, i)])
      else BadInput
  }

  /** Behind a let or an expression the delimiter is gone and a blank is left. */
  lemma OverDelimiter(s: Text, i: nat, ss: seq<Statement>, w: Written, state: LexState)
    requires var k := i + |Print(w)|;
             && (w.WrittenLet? ==> !w.bare || k == |s|) && i < |s| && s[i] != ';' && s[i] != ','
             && state != Base && Followed(s, k) && BaseTurn(s, i, ss) == Go(i, state, ss)
             && TurnOf(s, i, state, ss) == Go(Behind(s, k), Base, ss + [Locate(w, i)])
    ensures RunsOver(s, i, ss, w)
  {
    hide BaseTurn, LetTurn, ExpressionTurn, KeyTurn, ScanFrom, HasAt, Print, Locate;
    var k := i + |Print(w)|;
    TwoTurns(s, i, state, ss, Behind(s, k), ss + [Locate(w, i)]);
    if k < |s| {
      BlankTurn(s, k + 1, ss + [Locate(w, i)]);
    }
  }

  /** Behind a bare let only a blank is left, or that is gone as well. */
  lemma OverBlank(s: Text, i: nat, ss: seq<Statement>, w: Written)
    requires var k := i + |Print(w)|;
             && i < |s| && !IsDelimiter(s[i]) && w.WrittenLet? && w.bare && FollowedBare(s, k)
             && BaseTurn(s, i, ss) == Go(i, LetState, ss)
             && LetTurn(s, i, ss) == Go(AfterLet(s, k, w), Base, ss + [Locate(w, i)])
    ensures RunsOver(s, i, ss, w)
  {
    hide BaseTurn, LetTurn, ExpressionTurn, KeyTurn, ScanFrom, HasAt, Print, Locate;
    var k := i + |Print(w)|;
    TwoTurns(s, i, LetState, ss, AfterLet(s, k, w), ss + [Locate(w, i)]);
    BlankTurn(s, k, ss + [Locate(w, i)]);
  }

  /** What comes behind a written statement. */
  predicate GoesOn(s: Text, k: nat, w: Written) {
    if w.WrittenLet? && w.bare then k == |s| || FollowedBare(s, k) else Followed(s, k)
  }

  lemma LetRuns(s: Text, i: nat, ss: seq<Statement>, w: Written)
    requires w.WrittenLet? && Valid(w, ss == []) && HasAt(s, i, Print(w)) && GoesOn(s, i + |Print(w)|, w)
    ensures i <= |s| && RunsOver(s, i, ss, w)
  {
    hide LetTurn, BaseTurn, ScanFrom, Word, RunsOver, Run;
    HasBoth(s, i, "let ", w.variable + if w.export_.Some? then " = " + w.export_.value else "");
    LastChar(s, i, "let ");
    BaseLet(s, i, ss);
    LetParses(s, i, ss, w);
    if w.bare && i + |Print(w)| < |s| {
      OverBlank(s, i, ss, w);
    } else {
      OverDelimiter(s, i, ss, w, LetState);
    }
  }

  lemma FirstRuns(s: Text, i: nat, w: Written)
    requires w.WrittenExpression? && Valid(w, true) && HasAt(s, i, Print(w)) && Followed(s, i + |Print(w)|)
    ensures i <= |s| && RunsOver(s, i, [], w)
  {
    hide ExpressionTurn, BaseTurn, ScanFrom, Word, CompleteFrom, RunsOver, Run, HasAt, StartsExpression;
    HasBoth(s, i, w.text, PrintLocal(w.local));
    LastChar(s, i, w.text);
    CompleteStart(w.text);
    if w.local.Some? {
      NotEmpty(w.local.value);
      LocalAt(s, i + |w.text|, w.local.value);
    }
    BaseFirst(s, i, w.text);
    ExpressionParses(s, i, [], w);
    OverDelimiter(s, i, [], w, ExpressionState);
  }

  lemma AsIsComplete()
    ensures CompleteFrom("as", 0, [])
  {
    assert ScanFrom("as", 1, []) == ScanFrom("as", 2, []) == At(2);
    assert ScanFrom("as", 0, []) == ScanFrom("as", 1, []);
    assert "as"[1..] == "s" && "s"[1..] == "";
  }

  lemma AsScans(s: Text, j: nat, x: Text)
    requires HasAt(s, j, "as") && HasAt(s, j, "as ") && j + 3 < |s| && IsJsIdentifierChar(s[j + 3])
    ensures ScanFrom(s, j, []) == At(j + 2)
  {
    hide HasAt;
    LastChar(s, j, "as ");
    LastChar(s, j, "as");
    AsIsComplete();
    CompleteScan(s, j, "as");
  }

  lemma PrintedName(w: Written)
    requires w.WrittenExpression? && Valid(w, false)
    ensures NameOf(w.text) && w.local.Some? && Word(w.local.value) && Complete(w.text)
    ensures Print(w) == w.text + (" as " + w.local.value) == (w.text + (" " + "as")) + (" " + w.local.value)
  {
    assert " as " + w.local.value == " " + "as" + (" " + w.local.value);
  }

  lemma NameRuns(s: Text, i: nat, ss: seq<Statement>, w: Written)
    requires ss != [] && w.WrittenExpression? && Valid(w, false) && HasAt(s, i, Print(w)) && Followed(s, i + |Print(w)|)
    ensures i <= |s| && RunsOver(s, i, ss, w)
  {
    hide ExpressionTurn, BaseTurn, ScanFrom, Word, Complete, RunsOver, Run, HasAt, NameOf, IsJsIdentifierChar, Print,
        Valid, Locate;
    PrintedName(w);
    var x := w.local.value;
    var e := i + |w.text|;
    HasBoth(s, i, w.text, " as " + x);
    NotEmpty(x);
    WordStart(x);
    LocalAt(s, e, x);
    AsScans(s, e + 1, x);
    HasBoth(s, i, w.text + (" " + "as"), " " + x);
    BaseLater(s, i, ss, w.text, "as");
    NameFacts(w.text);
    WordStart(w.text);
    ExpressionParses(s, i, ss, w);
    OverDelimiter(s, i, ss, w, ExpressionState);
  }

  lemma BaseKey(s: Text, i: nat, ss: seq<Statement>, key: Text, t: Text)
    requires ss != [] && NameOf(key) && Complete(t) && t != "as" && t[0] != ':' && HasAt(s, i, key + (" " + t))
             && Stops(s, i + |key| + 1 + |t|)
    ensures i < |s| && !IsDelimiter(s[i]) && BaseTurn(s, i, ss) == Go(i, KeyExpState, ss)
  {
    hide BaseTurn, ScanFrom, Word, CompleteFrom, HasAt, NameOf, IsJsIdentifierChar, IsOperator, Stops;
    HasBoth(s, i, key, " " + t);
    HasBoth(s, i + |key|, " ", t);
    CompleteStart(t);
    CompleteScan(s, i + |key| + 1, t);
    BaseLater(s, i, ss, key, t);
    NameFacts(key);
    WordStart(key);
  }

  /** A colon decides at once. */
  lemma BaseColon(s: Text, i: nat, ss: seq<Statement>, key: Text, more: Text)
    requires ss != [] && NameOf(key) && HasAt(s, i, key + (":" + more))
    ensures i < |s| && !IsDelimiter(s[i]) && BaseTurn(s, i, ss) == Go(i, KeyExpState, ss)
  {
    hide HasAt, Identifier, SkipBlanks, UnaryEnd, Word, NameOf, IsJsIdentifierChar, ScanFrom;
    HasBoth(s, i, key, ":" + more);
    HasBoth(s, i + |key|, ":", more);
    NameFacts(key);
    WordStart(key);
    LastChar(s, i, key);
    UnaryNone(s, i);
    LastChar(s, i + |key|, ":");
    WordStopsAt(s, i, key);
    BlanksAt(s, i + |key|, i + |key|);
  }

  lemma PrintedKey(w: Written)
    requires w.WrittenKey? && Valid(w, false)
    ensures NameOf(w.key) && Complete(w.text) && w.text != "" && LocalOf(w.local)
    ensures !w.colon ==> w.text != "as" && w.text[0] != ':'
    ensures Print(w) == (w.key + (Mark(w.colon) + w.text)) + PrintLocal(w.local)
  {
  }

  /** The expression behind a key stops where it was printed to stop. */
  lemma KeyStops(s: Text, i: nat, w: Written)
    requires w.WrittenKey? && Valid(w, false) && HasAt(s, i, Print(w)) && Followed(s, i + |Print(w)|)
    ensures HasAt(s, i, w.key + (Mark(w.colon) + w.text))
    ensures Stops(s, i + |w.key| + |Mark(w.colon)| + |w.text|) && i < |s|
  {
    hide Word, Complete, HasAt, NameOf, IsJsIdentifierChar, IsOperator, Print, Valid;
    PrintedKey(w);
    var head := w.key + (Mark(w.colon) + w.text);
    HasBoth(s, i, head, PrintLocal(w.local));
    LastChar(s, i, head);
    if w.local.Some? {
      NotEmpty(w.local.value);
      LocalAt(s, i + |head|, w.local.value);
      StopsBeforeAs(s, i, head, w.text);
    }
  }

  lemma KeyRuns(s: Text, i: nat, ss: seq<Statement>, w: Written)
    requires ss != [] && w.WrittenKey? && Valid(w, false) && HasAt(s, i, Print(w)) && Followed(s, i + |Print(w)|)
    ensures i <= |s| && RunsOver(s, i, ss, w)
  {
    hide KeyTurn, BaseTurn, Word, Complete, Run, HasAt, NameOf, IsJsIdentifierChar, IsOperator, RunsOver, Print,
        Valid, Locate, Stops;
    PrintedKey(w);
    KeyStops(s, i, w);
    if w.colon {
      assert Mark(true) + w.text == ":" + (" " + w.text);
      BaseColon(s, i, ss, w.key, " " + w.text);
    } else {
      BaseKey(s, i, ss, w.key, w.text);
    }
    KeyParses(s, i, ss, w);
    KeyOver(s, i, ss, w);
  }

  lemma KeyOver(s: Text, i: nat, ss: seq<Statement>, w: Written)
    requires var k := i + |Print(w)|;
             && i < |s| && !IsDelimiter(s[i]) && Followed(s, k) && w.WrittenKey?
             && BaseTurn(s, i, ss) == Go(i, KeyExpState, ss)
             && KeyTurn(s, i, ss) == Go(AfterKey(s, k, w), Base, ss + [Locate(w, i)])
    ensures RunsOver(s, i, ss, w)
  {
    hide BaseTurn, LetTurn, ExpressionTurn, KeyTurn, ScanFrom, HasAt, Print, Locate;
    if w.local.Some? {
      OverDelimiter(s, i, ss, w, KeyExpState);
    } else {
      var k := i + |Print(w)|;
      TwoTurns(s, i, KeyExpState, ss, if k == |s| then k + 1 else k + 2, ss + [Locate(w, i)]);
    }
  }

  // ----- the round trip -----

  /** How a later statement begins: nothing that a statement in front could take. */
  predicate Begins(s: Text, i: nat) {
    i < |s| && s[i] !in " ;,=" && !HasAt(s, i, "as ")
  }

  /** A later statement begins with a word that is not `as`. */
  lemma WordStartsLater(s: Text, i: nat, word: Text, rest: Text)
    requires NameOf(word) && rest != "" && rest[0] in " :" && HasAt(s, i, word + rest)
    ensures Begins(s, i)
  {
    hide HasAt, NameOf, Word;
    HasBoth(s, i, word, rest);
    LastChar(s, i + |word|, rest);
    NameFacts(word);
    WordStart(word);
    LastChar(s, i, word);
    WordIsNotAs(s, i, word);
  }

  lemma LetStartsLater(s: Text, i: nat, rest: Text)
    requires HasAt(s, i, "let " + rest)
    ensures Begins(s, i)
  {
    hide HasAt;
    HasBoth(s, i, "let ", rest);
    LastChar(s, i, "let ");
    HasAtChar(s, i, "as ", 0);
  }

  lemma StartsLater(s: Text, i: nat, w: Written)
    requires Valid(w, false) && HasAt(s, i, Print(w))
    ensures Begins(s, i)
  {
    hide HasAt, NameOf, Word, Complete;
    match w
    case WrittenLet(variable, export_, _) =>
      LetStartsLater(s, i, variable + if export_.Some? then " = " + export_.value else "");
    case WrittenKey(key, colon, text, local) => WordStartsLater(s, i, key, Mark(colon) + (text + PrintLocal(local)));
    case WrittenExpression(text, local) => WordStartsLater(s, i, text, " as " + local.value);
  }

  lemma WordIsNotAs(s: Text, i: nat, word: Text)
    requires NameOf(word) && HasAt(s, i, word) && i + |word| < |s| && s[i + |word|] in " :"
    ensures !HasAt(s, i, "as ")
  {
    NameFacts(word);
    WordStopsAt(s, i, word);
    if HasAt(s, i, "as ") {
      assert "as" + " " == "as ";
      HasBoth(s, i, "as", " ");
      LastChar(s, i + 2, " ");
      WordStopsAt(s, i, "as");
      assert false;
    }
  }

  lemma PrintedBehind(s: Text, i: nat, ws: seq<Written>, d: char)
    requires |ws| >= 2 && HasAt(s, i, PrintAll(ws, d)) && ValidAll(ws[1..], false) && IsDelimiter(d)
    ensures var k := i + |Print(ws[0])|;
            && HasAt(s, i, Print(ws[0])) && GoesOn(s, k, ws[0]) && k < |s|
            && HasAt(s, k + GapSize(ws[0]), PrintAll(ws[1..], d))
  {
    hide Valid, Print, HasAt;
    var w, rest := ws[0], ws[1..];
    var k := i + |Print(w)|;
    var gap := Gap(w, d);
    HasBoth(s, i, Print(w), gap + PrintAll(rest, d));
    HasBoth(s, k, gap, PrintAll(rest, d));
    LastChar(s, k, gap);
    if |rest| > 1 {
      HasBoth(s, k + |gap|, Print(rest[0]), Gap(rest[0], d) + PrintAll(rest[1..], d));
    }
    StartsLater(s, k + |gap|, rest[0]);
  }

  lemma {:induction false} RoundTripFrom(s: Text, i: nat, ss: seq<Statement>, ws: seq<Written>, d: char)
    requires ws != [] && HasAt(s, i, PrintAll(ws, d)) && i + |PrintAll(ws, d)| == |s| && ValidAll(ws, ss == [])
    requires IsDelimiter(d)
    ensures Run(s, i, Base, ss) == Parsed(ss + LocateAll(ws, i))
    decreases |ws|
  {
    hide Valid, Print, HasAt, GoesOn, Run, Locate, RunsOver, PrintAll, LocateAll, ValidAll, GapSize;
    Unrolled(ws, ss == [], i, d);
    if |ws| == 1 {
      LastRuns(s, i, ss, ws[0]);
    } else {
      var w := ws[0];
      PrintedBehind(s, i, ws, d);
      StatementRuns(s, i, ss, w);
      RunsToNext(s, i, ss, w);
      RoundTripFrom(s, i + |Print(w)| + GapSize(w), ss + [Locate(w, i)], ws[1..], d);
      assert ss + [Locate(w, i)] + LocateAll(ws[1..], i + |Print(w)| + GapSize(w)) == ss + LocateAll(ws, i);
    }
  }

  lemma Unrolled(ws: seq<Written>, first: bool, i: nat, d: char)
    requires ws != [] && ValidAll(ws, first)
    ensures Valid(ws[0], first) && ValidAll(ws[1..], false)
    ensures PrintAll(ws, d) ==
            if |ws| == 1 then Print(ws[0]) else Print(ws[0]) + (Gap(ws[0], d) + PrintAll(ws[1..], d))
    ensures LocateAll(ws, i) == [Locate(ws[0], i)] + if |ws| == 1 then []
              else LocateAll(ws[1..], i + |Print(ws[0])| + GapSize(ws[0]))
  {
    hide Valid, Print, Locate;
    if |ws| == 1 {
      assert LocateAll(ws[1..], i + |Print(ws[0])| + GapSize(ws[0])) == [];
    }
  }

  lemma LastRuns(s: Text, i: nat, ss: seq<Statement>, w: Written)
    requires Valid(w, ss == []) && HasAt(s, i, Print(w)) && i + |Print(w)| == |s|
    ensures Run(s, i, Base, ss) == Parsed(ss + [Locate(w, i)])
  {
    hide Valid, Print, HasAt, Run, Locate;
    FollowedAtEnd(s);
    StatementRuns(s, i, ss, w);
  }

  lemma RunsToNext(s: Text, i: nat, ss: seq<Statement>, w: Written)
    requires i <= |s| && RunsOver(s, i, ss, w) && i + |Print(w)| + GapSize(w) <= |s|
    ensures Run(s, i, Base, ss) == Run(s, i + |Print(w)| + GapSize(w), Base, ss + [Locate(w, i)])
  {
    hide Print, Run, Locate;
  }

  lemma FollowedAtEnd(s: Text)
    ensures Followed(s, |s|)
  {
  }

  lemma StatementRuns(s: Text, i: nat, ss: seq<Statement>, w: Written)
    requires Valid(w, ss == []) && HasAt(s, i, Print(w)) && GoesOn(s, i + |Print(w)|, w)
    ensures i <= |s| && RunsOver(s, i, ss, w)
  {
    hide Print, HasAt, Followed, RunsOver;
    match w
    case WrittenLet(_, _, _) => LetRuns(s, i, ss, w);
    case WrittenExpression(_, _) => if ss == [] { FirstRuns(s, i, w); } else { NameRuns(s, i, ss, w); }
    case WrittenKey(_, _, _, _) => KeyRuns(s, i, ss, w);
  }

  /** Round trip: parsing the printed form of any list of statements gives these
      statements back, each with the offsets it was printed at.  They may be separated by
      semicolons or by commas, or by a blank alone behind a `let`; a key may have a
      colon. */
  lemma RoundTrip(ws: seq<Written>, d: char)
    requires ValidAll(ws, true) && IsDelimiter(d)
    ensures Parse(PrintAll(ws, d)) == Parsed(LocateAll(ws, 0))
  {
    if ws != [] {
      var s := PrintAll(ws, d);
      assert s[0..0 + |s|] == s;
      RoundTripFrom(s, 0, [], ws, d);
      assert [] + LocateAll(ws, 0) == LocateAll(ws, 0);
    }
  }
}
