/** The parser of the Angular microsyntax: `let x of items; trackBy: f; index as i`. */
module Microsyntax {
  import opened Options
  import opened MicroExpression
  import opened Texts

  datatype Named = Named(text: Text, offset: nat)

  datatype Statement =
    | Expression(expression: Named, local: Option<Named>)
    | KeyExp(key: Named, expression: Named, local: Option<Named>)
    | Let(variable: Named, export_: Option<Named>)

  datatype LexState = Base | LetState | ExpressionState | KeyExpState

  /** `Panicked` is a read past the end of the text. */
  datatype Outcome = Parsed(statements: seq<Statement>) | BadInput | Panicked

  // ----- helpers -----

  datatype Taken = TakePanic | Bad | Took(index: nat)

  predicate IsHtmlIdentifierChar(c: char) {
    IsLetter(c) || IsNumber(c) || c == '_' || c == '-'
  }

  predicate IsIdentifierChar(c: char, js: bool) {
    if js then IsJsIdentifierChar(c) else IsHtmlIdentifierChar(c)
  }

  function IdentifierEnd(s: Text, i: nat, js: bool): (r: nat)
    requires i <= |s|
    ensures i <= r <= |s| && (forall k :: i <= k < r ==> IsIdentifierChar(s[k], js))
    ensures r < |s| ==> !IsIdentifierChar(s[r], js)
    decreases |s| - i
  {
    if i < |s| && IsIdentifierChar(s[i], js) then IdentifierEnd(s, i + 1, js) else i
  }

  function Identifier(s: Text, i: nat, js: bool): (r: Taken)
    ensures r.Took? ==> i < r.index <= |s|
  {
    if i >= |s| then TakePanic
    else if !IsIdentifierChar(s[i], js) || IsNumber(s[i]) then Bad
    else Took(IdentifierEnd(s, i + 1, js))
  }

  method ExpectAndTakeIdentifier(i: nat, runeText: Text, jsIdentifier: bool) returns (r: Taken)
    ensures r == Identifier(runeText, i, jsIdentifier)
  {
    var index := i;
    if index >= |runeText| {
      return TakePanic;
    }
    var c := runeText[index];
    if !IsIdentifierChar(c, jsIdentifier) || IsNumber(c) {
      return Bad;
    }
    index := index + 1;
    while index < |runeText|
      invariant i < index <= |runeText| && IdentifierEnd(runeText, i + 1, jsIdentifier) ==
                IdentifierEnd(runeText, index, jsIdentifier)
    {
      if !IsIdentifierChar(runeText[index], jsIdentifier) {
        break;
      }
      index := index + 1;
    }
    return Took(index);
  }

  predicate IsUnary(c: char) {
    c == '!' || c == '+' || c == '-'
  }

  /** At most two unary operators may be chained, and something must follow. */
  function UnaryEnd(s: Text, i: nat, howMany: nat): (r: Taken)
    requires i < |s|
    ensures r.Took? ==> i <= r.index < |s| && (r.index == i <==> !IsUnary(s[i]))
    decreases |s| - i
  {
    if !IsUnary(s[i]) then Took(i)
    else if i + 1 == |s| then TakePanic
    else if howMany + 1 > 2 then Bad
    else UnaryEnd(s, i + 1, howMany + 1)
  }

  method ConsumeOptionalUnaryOperator(i: nat, runeText: Text) returns (r: Taken)
    requires i < |runeText|
    ensures r == UnaryEnd(runeText, i, 0)
  {
    var index := i;
    var c := runeText[index];
    var howMany := 0;
    while IsUnary(c)
      invariant i <= index < |runeText| && c == runeText[index]
      invariant UnaryEnd(runeText, i, 0) == UnaryEnd(runeText, index, howMany)
      decreases |runeText| - index
    {
      howMany := howMany + 1;
      index := index + 1;
      if index >= |runeText| {
        return TakePanic;
      }
      c := runeText[index];
      if howMany > 2 {
        return Bad;
      }
    }
    return Took(index);
  }

  method ConsumeSpaces(i: nat, runeText: Text) returns (r: nat)
    ensures r == Blanks(runeText, i)
  {
    r := i;
    while r < |runeText| && runeText[r] == ' '
      invariant i <= r && (i <= |runeText| ==> r <= |runeText|) && Blanks(runeText, i) == Blanks(runeText, r)
    {
      r := r + 1;
    }
  }

  /** Blanks may be skipped past the end, where there are none. */
  function Blanks(s: Text, i: nat): (r: nat)
    ensures r >= i
  {
    if i <= |s| then SkipBlanks(s, i) else i
  }

  function Delimiter(s: Text, i: nat): (r: nat)
    ensures i <= r <= i + 1
  {
    if i < |s| && (s[i] == ';' || s[i] == ',') then i + 1 else i
  }

  function NamedAt(s: Text, from: nat, to: nat): Named
    requires from <= to <= |s|
  {
    Named(s[from..to], from)
  }

  // ----- one turn of the loop -----

  datatype Turn = Go(index: nat, state: LexState, statements: seq<Statement>) | Stop(outcome: Outcome)

  /** Decides what the next statement is; never consumes anything but a blank. */
  function BaseTurn(s: Text, i: nat, ss: seq<Statement>): (r: Turn)
    requires i < |s|
    ensures r.Stop? ==> !r.outcome.Parsed?
    ensures r.Go? ==> r.statements == ss && ((r.index == i + 1 && r.state == Base) || (r.index == i && r.state != Base))
  {
    if s[i] == ' ' then Go(i + 1, Base, ss)
    else
      match UnaryEnd(s, i, 0)
      case TakePanic => Stop(Panicked)
      case Bad => Stop(BadInput)
      case Took(u) =>
        if u > i then Go(i, ExpressionState, ss)
        else
          var id := Identifier(s, i, true);
          if id.Took? && s[i..id.index] == "let" then Go(i, LetState, ss)
          else if ss == [] then Go(i, ExpressionState, ss)
          else
            var j := SkipBlanks(s, if id.Took? then id.index else i);
            if j >= |s| - 1 || s[j] == ':' then Go(i, KeyExpState, ss)
            else
              match ScanFrom(s, j, [])
              case Panic => Stop(Panicked)
              case At(e) => Go(i, if s[j..e] == "as" then ExpressionState else KeyExpState, ss)
  }

  function LetTurn(s: Text, i: nat, ss: seq<Statement>): (r: Turn)
    requires i < |s|
    ensures r.Stop? ==> !r.outcome.Parsed?
    ensures r.Go? ==> r.index > i && r.state == Base && ss <= r.statements && |r.statements| == |ss| + 1
  {
    if !HasAt(s, i, "let ") then Stop(BadInput)
    else
      match Identifier(s, i + 4, true)
      case TakePanic => Stop(Panicked)
      case Bad => Stop(BadInput)
      case Took(l) => LetExport(s, NamedAt(s, i + 4, l), l, ss)
  }

  /** The rest of a `let`, behind its variable. */
  function LetExport(s: Text, variable: Named, l: nat, ss: seq<Statement>): (r: Turn)
    requires l <= |s|
    ensures r.Stop? ==> !r.outcome.Parsed?
    ensures r.Go? ==> r.index >= l && r.state == Base && ss <= r.statements && |r.statements| == |ss| + 1
  {
    if l == |s| then Go(l, Base, ss + [Let(variable, None)])
    else
      var b := SkipBlanks(s, l);
      if b == |s| then Stop(Panicked)
      else if s[b] != '=' then Go(Delimiter(s, b), Base, ss + [Let(variable, None)])
      else
        var x := SkipBlanks(s, b + 1);
        match Identifier(s, x, true)
        case TakePanic => Stop(Panicked)
        case Bad => Stop(BadInput)
        case Took(e) => Go(Delimiter(s, e), Base, ss + [Let(variable, Some(NamedAt(s, x, e)))])
  }

  function ExpressionTurn(s: Text, i: nat, ss: seq<Statement>): (r: Turn)
    requires i < |s|
    ensures r.Stop? ==> !r.outcome.Parsed?
    ensures r.Go? ==> r.index >= i && r.state == Base && ss <= r.statements && |r.statements| == |ss| + 1
    ensures r.Go? && ScanFrom(s, i, []) != At(i) ==> r.index > i
  {
    match ScanFrom(s, i, [])
    case Panic => Stop(Panicked)
    case At(e) =>
      var expression := NamedAt(s, i, e);
      var b := SkipBlanks(s, e);
      if b >= |s| - 2 || (s[b] != 'a' && s[b + 1] != 's') then
        Go(Delimiter(s, b), Base, ss + [Expression(expression, None)])
      else if !HasAt(s, b, "as") then Stop(BadInput)
      else
        var x := SkipBlanks(s, b + 2);
        match Identifier(s, x, true)
        case TakePanic => Stop(Panicked)
        case Bad => Stop(BadInput)
        case Took(l) => Go(Delimiter(s, l), Base, ss + [Expression(expression, Some(NamedAt(s, x, l)))])
  }

  function KeyTurn(s: Text, i: nat, ss: seq<Statement>): (r: Turn)
    requires i < |s|
    ensures r.Stop? ==> !r.outcome.Parsed?
    ensures r.Go? ==> r.index > i && r.state == Base && ss <= r.statements && |r.statements| == |ss| + 1
  {
    match Identifier(s, i, false)
    case TakePanic => Stop(Panicked)
    case Bad => Stop(BadInput)
    case Took(k) =>
      var b := SkipBlanks(s, k);
      if b == |s| then Stop(BadInput)
      else
        var x := SkipBlanks(s, if s[b] == ':' then b + 1 else b);
        match ScanFrom(s, x, [])
        case Panic => Stop(Panicked)
        case At(e) => KeyLocal(s, NamedAt(s, i, k), NamedAt(s, x, e), e, ss)
  }

  /** The rest of a keyed expression.  One character behind the expression is skipped,
      whatever it is. */
  function KeyLocal(s: Text, key: Named, expression: Named, e: nat, ss: seq<Statement>): (r: Turn)
    requires e <= |s|
    ensures r.Stop? ==> !r.outcome.Parsed?
    ensures r.Go? ==> r.index > e && r.state == Base && ss <= r.statements && |r.statements| == |ss| + 1
  {
    var plain := ss + [KeyExp(key, expression, None)];
    if e + 1 >= |s| then Go(e + 1, Base, plain)
    else
      var b := SkipBlanks(s, e + 1);
      if !HasAt(s, b, "as ") then Go(Delimiter(s, b), Base, plain)
      else
        var x := SkipBlanks(s, b + 3);
        match Identifier(s, x, true)
        case TakePanic => Stop(Panicked)
        case Bad => Stop(BadInput)
        case Took(l) => Go(Delimiter(s, l), Base, ss + [KeyExp(key, expression, Some(NamedAt(s, x, l)))])
  }

  // ----- the whole parser -----

  /** After the first statement an expression is only entered where the scanner is
      sure to move on. */
  predicate Ready(s: Text, i: nat, state: LexState, ss: seq<Statement>) {
    state == ExpressionState && ss != [] ==> i < |s| && ScanFrom(s, i, []) != At(i)
  }

  function TurnOf(s: Text, i: nat, state: LexState, ss: seq<Statement>): Turn
    requires i < |s|
  {
    match state
    case Base => BaseTurn(s, i, ss)
    case LetState => LetTurn(s, i, ss)
    case ExpressionState => ExpressionTurn(s, i, ss)
    case KeyExpState => KeyTurn(s, i, ss)
  }

  lemma IdentifierScans(s: Text, i: nat)
    requires i < |s| && (IsJsIdentifierChar(s[i]) || IsOperator(s[i]))
    ensures ScanFrom(s, i, []) != At(i)
  {
  }

  /** A scan that yields "as" starts at an identifier. */
  lemma BaseReady(s: Text, i: nat, ss: seq<Statement>)
    requires i < |s|
    ensures var t := BaseTurn(s, i, ss); t.Go? ==> Ready(s, t.index, t.state, ss)
  {
    var t := BaseTurn(s, i, ss);
    if t.Go? && t.state == ExpressionState && ss != [] {
      if IsUnary(s[i]) {
        IdentifierScans(s, i);
      } else if IsIdentifierChar(s[i], true) {
        IdentifierScans(s, i);
      } else {
        assert s[i] == 'a';
      }
    }
  }

  /** The rest of a key expression: the delimiter, or a local variable after `as`. */
  method LexKeyLocal(runeText: Text, key: Named, expression: Named, end: nat, ss: seq<Statement>) returns (r: Turn)
    requires end <= |runeText|
    ensures r == KeyLocal(runeText, key, expression, end, ss)
  {
    hide ScanFrom, SkipBlanks, Identifier, IdentifierEnd, HasAt;
    var next := end + 1;
    if next >= |runeText| {
      return Go(Delimiter(runeText, next), Base, ss + [KeyExp(key, expression, None)]);
    }
    next := ConsumeSpaces(next, runeText);
    var ok := ExpectAndTakeWord(next, runeText, "as ");
    if !ok {
      return Go(Delimiter(runeText, next), Base, ss + [KeyExp(key, expression, None)]);
    }
    next := ConsumeSpaces(next + 3, runeText);
    var local := ExpectAndTakeIdentifier(next, runeText, true);
    if !local.Took? {
      return Stop(if local.Bad? then BadInput else Panicked);
    }
    var statement := KeyExp(key, expression, Some(Named(runeText[next..local.index], next)));
    return Go(Delimiter(runeText, local.index), Base, ss + [statement]);
  }

  /** Termination: every turn either moves on, or adds the first statement, or leaves
      the base state. */
  function Run(s: Text, i: nat, state: LexState, ss: seq<Statement>): Outcome
    requires Ready(s, i, state, ss) && i <= |s| + 1
    decreases |s| + 1 - i, ss == [], state == Base
  {
    if i >= |s| then Parsed(ss)
    else if i + 1 == |s| && (s[i] == ',' || s[i] == ';') then Parsed(ss)
    else
      BaseReady(s, i, ss);
      match TurnOf(s, i, state, ss)
      case Stop(outcome) => outcome
      case Go(j, next, more) =>
        TurnStays(s, i, state, ss);
        Run(s, j, next, more)
  }

  lemma TurnStays(s: Text, i: nat, state: LexState, ss: seq<Statement>)
    requires i < |s| && TurnOf(s, i, state, ss).Go?
    ensures TurnOf(s, i, state, ss).index <= |s| + 1
  {
  }

  function Parse(s: Text): Outcome {
    Run(s, 0, Base, [])
  }

  // ----- the parser as a loop -----

  method LexBase(i: nat, runeText: Text, ss: seq<Statement>) returns (r: Turn)
    requires i < |runeText|
    ensures r == BaseTurn(runeText, i, ss)
  {
    if runeText[i] == ' ' {
      return Go(i + 1, Base, ss);
    }
    var endIndex := i;
    var unaryOperator := ConsumeOptionalUnaryOperator(endIndex, runeText);
    if !unaryOperator.Took? {
      return Stop(if unaryOperator.Bad? then BadInput else Panicked);
    }
    if unaryOperator.index > i {
      return Go(i, ExpressionState, ss);
    }
    var identifier := ExpectAndTakeIdentifier(endIndex, runeText, true);
    if identifier.Took? {
      endIndex := identifier.index;
      if runeText[i..endIndex] == "let" {
        return Go(i, LetState, ss);
      }
    }
    if ss == [] {
      return Go(i, ExpressionState, ss);
    }
    var j := endIndex;
    while true
      invariant endIndex <= j <= |runeText| && SkipBlanks(runeText, j) == SkipBlanks(runeText, endIndex)
      decreases |runeText| - j
    {
      if j >= |runeText| - 1 {
        return Go(i, KeyExpState, ss);
      }
      if runeText[j] != ' ' {
        break;
      }
      j := j + 1;
    }
    if runeText[j] == ':' {
      return Go(i, KeyExpState, ss);
    }
    var end := ParseExpression(j, runeText);
    if end.Panic? {
      return Stop(Panicked);
    }
    return Go(i, if runeText[j..end.index] == "as" then ExpressionState else KeyExpState, ss);
  }

  method ExpectAndTakeWord(i: nat, runeText: Text, word: Text) returns (ok: bool)
    ensures ok == HasAt(runeText, i, word)
  {
    for k := 0 to |word|
      invariant k > 0 ==> i + k <= |runeText|
      invariant forall x :: 0 <= x < k ==> runeText[i + x] == word[x]
    {
      HasAtChar(runeText, i, word, k);
      if i + k >= |runeText| || runeText[i + k] != word[k] {
        return false;
      }
    }
    ok := i + |word| <= |runeText|;
  }

  method LexLet(i: nat, runeText: Text, ss: seq<Statement>) returns (r: Turn)
    requires i < |runeText|
    ensures r == LetTurn(runeText, i, ss)
  {
    hide ScanFrom, SkipBlanks, Identifier, HasAt, Delimiter;
    var ok := ExpectAndTakeWord(i, runeText, "let ");
    if !ok {
      return Stop(BadInput);
    }
    var localOffset := i + 4;
    var local := ExpectAndTakeIdentifier(localOffset, runeText, true);
    if !local.Took? {
      return Stop(if local.Bad? then BadInput else Panicked);
    }
    var variable := Named(runeText[localOffset..local.index], localOffset);
    var next := local.index;
    if next == |runeText| {
      return Go(next, Base, ss + [Let(variable, None)]);
    }
    next := ConsumeSpaces(next, runeText);
    if next >= |runeText| {
      return Stop(Panicked);
    }
    if runeText[next] != '=' {
      return Go(Delimiter(runeText, next), Base, ss + [Let(variable, None)]);
    }
    next := ConsumeSpaces(next + 1, runeText);
    var exported := ExpectAndTakeIdentifier(next, runeText, true);
    if !exported.Took? {
      return Stop(if exported.Bad? then BadInput else Panicked);
    }
    var let := Let(variable, Some(Named(runeText[next..exported.index], next)));
    return Go(Delimiter(runeText, exported.index), Base, ss + [let]);
  }

  method LexExpression(i: nat, runeText: Text, ss: seq<Statement>) returns (r: Turn)
    requires i < |runeText|
    ensures r == ExpressionTurn(runeText, i, ss)
  {
    hide ScanFrom, SkipBlanks, Identifier, HasAt, Delimiter;
    var end := ParseExpression(i, runeText);
    if end.Panic? {
      return Stop(Panicked);
    }
    var expression := Named(runeText[i..end.index], i);
    var next := ConsumeSpaces(end.index, runeText);
    if next >= |runeText| - 2 || (runeText[next] != 'a' && runeText[next + 1] != 's') {
      return Go(Delimiter(runeText, next), Base, ss + [Expression(expression, None)]);
    }
    var ok := ExpectAndTakeWord(next, runeText, "as");
    if !ok {
      return Stop(BadInput);
    }
    next := ConsumeSpaces(next + 2, runeText);
    var local := ExpectAndTakeIdentifier(next, runeText, true);
    if !local.Took? {
      return Stop(if local.Bad? then BadInput else Panicked);
    }
    var statement := Expression(expression, Some(Named(runeText[next..local.index], next)));
    return Go(Delimiter(runeText, local.index), Base, ss + [statement]);
  }

  method LexKeyExp(i: nat, runeText: Text, ss: seq<Statement>) returns (r: Turn)
    requires i < |runeText|
    ensures r == KeyTurn(runeText, i, ss)
  {
    hide ScanFrom, SkipBlanks, Identifier, IdentifierEnd, HasAt, KeyLocal;
    var identifier := ExpectAndTakeIdentifier(i, runeText, false);
    if !identifier.Took? {
      return Stop(if identifier.Bad? then BadInput else Panicked);
    }
    var key := Named(runeText[i..identifier.index], i);
    var next := ConsumeSpaces(identifier.index, runeText);
    if next >= |runeText| {
      return Stop(BadInput);
    }
    if runeText[next] == ':' {
      next := next + 1;
    }
    next := ConsumeSpaces(next, runeText);
    var end := ParseExpression(next, runeText);
    if end.Panic? {
      return Stop(Panicked);
    }
    var expression := Named(runeText[next..end.index], next);
    r := LexKeyLocal(runeText, key, expression, end.index, ss);
  }

  method ParseShorthand(runeText: Text) returns (r: Outcome)
    ensures r == Parse(runeText)
  {
    hide BaseTurn, LetTurn, ExpressionTurn, KeyTurn, ScanFrom;
    var statements: seq<Statement> := [];
    var state := Base;
    var i := 0;
    while i < |runeText|
      invariant i <= |runeText| + 1 && Ready(runeText, i, state, statements)
      invariant Parse(runeText) == Run(runeText, i, state, statements)
      decreases |runeText| + 1 - i, statements == [], state == Base
    {
      var c := runeText[i];
      if i + 1 == |runeText| && (c == ',' || c == ';') {
        break;
      }
      var turn: Turn;
      match state {
        case Base => turn := LexBase(i, runeText, statements);
        case LetState => turn := LexLet(i, runeText, statements);
        case ExpressionState => turn := LexExpression(i, runeText, statements);
        case KeyExpState => turn := LexKeyExp(i, runeText, statements);
      }
      if turn.Stop? {
        return turn.outcome;
      }
      BaseReady(runeText, i, statements);
      TurnStays(runeText, i, state, statements);
      i, state, statements := turn.index, turn.state, turn.statements;
    }
    return Parsed(statements);
  }

  // ----- what is recorded -----

  function LocalFields(local: Option<Named>): seq<Named> {
    if local.Some? then [local.value] else []
  }

  /** Everything a statement records, in the order it stands in the text. */
  function Fields(st: Statement): seq<Named> {
    match st
    case Expression(expression, local) => [expression] + LocalFields(local)
    case KeyExp(key, expression, local) => [key, expression] + LocalFields(local)
    case Let(variable, export_) => [variable] + LocalFields(export_)
  }

  function AllFields(ss: seq<Statement>): seq<Named>
    decreases |ss|
  {
    if ss == [] then [] else AllFields(ss[..|ss| - 1]) + Fields(ss[|ss| - 1])
  }

  function EndOf(n: Named): nat {
    n.offset + |n.text|
  }

  /** The fields are slices of the text at their recorded offsets, between `lo` and
      `hi`, one after the other. */
  predicate Faithful(s: Text, fs: seq<Named>, lo: nat, hi: nat) {
    && (forall k {:trigger fs[k]} :: 0 <= k < |fs| ==>
          lo <= fs[k].offset && EndOf(fs[k]) <= hi && HasAt(s, fs[k].offset, fs[k].text))
    && forall k, l :: 0 <= k < l < |fs| ==> EndOf(fs[k]) <= fs[l].offset
  }

  lemma FaithfulJoin(s: Text, a: seq<Named>, b: seq<Named>, lo: nat, mid: nat, hi: nat)
    requires Faithful(s, a, lo, mid) && Faithful(s, b, mid, hi) && lo <= mid <= hi
    ensures Faithful(s, a + b, lo, hi)
  {
  }

  function Capped(s: Text, i: nat): nat {
    if i <= |s| then i else |s|
  }

  /** A turn adds at most one statement, read between the old and the new index. */
  ghost predicate Adds(s: Text, i: nat, ss: seq<Statement>, t: Turn) {
    t.Go? ==>
      && i <= t.index
      && (t.statements == ss ||
          exists st :: t.statements == ss + [st] && Faithful(s, Fields(st), i, Capped(s, t.index)))
  }

  lemma AddsOne(s: Text, i: nat, ss: seq<Statement>, st: Statement, index: nat)
    requires i <= index && Faithful(s, Fields(st), i, Capped(s, index))
    ensures Adds(s, i, ss, Go(index, Base, ss + [st]))
  {
  }

  /** One slice, or two slices in a row, are faithful. */
  lemma SlicesFaithful(s: Text, i: nat, from: nat, to: nat, x: nat, l: nat, hi: nat)
    requires i <= from <= to <= |s| && to <= hi
    ensures Faithful(s, [NamedAt(s, from, to)], i, hi)
    ensures to <= x <= l <= |s| && l <= hi ==> Faithful(s, [NamedAt(s, from, to)] + [NamedAt(s, x, l)], i, hi)
  {
  }

  lemma LetAdds(s: Text, i: nat, ss: seq<Statement>)
    requires i < |s|
    ensures Adds(s, i, ss, LetTurn(s, i, ss))
  {
    hide Adds, IdentifierEnd, LetExport;
    var t := LetTurn(s, i, ss);
    if t.Go? {
      LetExportAdds(s, i, i + 4, Identifier(s, i + 4, true).index, ss);
    } else {
      StopAdds(s, i, ss, t);
    }
  }

  lemma LetExportAdds(s: Text, i: nat, from: nat, l: nat, ss: seq<Statement>)
    requires i <= from <= l <= |s|
    ensures Adds(s, i, ss, LetExport(s, NamedAt(s, from, l), l, ss))
  {
    hide Adds, Faithful, IdentifierEnd, HasAt, Delimiter;
    var variable := NamedAt(s, from, l);
    var t := LetExport(s, variable, l, ss);
    if t.Stop? {
      StopAdds(s, i, ss, t);
    } else {
      SlicesFaithful(s, i, from, l, l, l, Capped(s, t.index));
      if l == |s| || s[SkipBlanks(s, l)] != '=' {
        AddsOne(s, i, ss, Let(variable, None), t.index);
      } else {
        var x := SkipBlanks(s, SkipBlanks(s, l) + 1);
        var e := Identifier(s, x, true).index;
        SlicesFaithful(s, i, from, l, x, e, Capped(s, t.index));
        AddsOne(s, i, ss, Let(variable, Some(NamedAt(s, x, e))), t.index);
      }
    }
  }

  lemma StopAdds(s: Text, i: nat, ss: seq<Statement>, t: Turn)
    requires t.Stop?
    ensures Adds(s, i, ss, t)
  {
  }

  lemma ExpressionAlone(s: Text, i: nat, e: nat, b: nat, ss: seq<Statement>)
    requires i <= e <= b <= |s|
    ensures Adds(s, i, ss, Go(Delimiter(s, b), Base, ss + [Expression(NamedAt(s, i, e), None)]))
  {
    hide Adds, Faithful;
    SlicesFaithful(s, i, i, e, e, e, Capped(s, Delimiter(s, b)));
    AddsOne(s, i, ss, Expression(NamedAt(s, i, e), None), Delimiter(s, b));
  }

  lemma ExpressionWithLocal(s: Text, i: nat, e: nat, x: nat, l: nat, ss: seq<Statement>)
    requires i <= e <= x <= l <= |s|
    ensures Adds(s, i, ss,
              Go(Delimiter(s, l), Base, ss + [Expression(NamedAt(s, i, e), Some(NamedAt(s, x, l)))]))
  {
    hide Adds, Faithful;
    SlicesFaithful(s, i, i, e, x, l, Capped(s, Delimiter(s, l)));
    AddsOne(s, i, ss, Expression(NamedAt(s, i, e), Some(NamedAt(s, x, l))), Delimiter(s, l));
  }

  lemma ExpressionAdds(s: Text, i: nat, ss: seq<Statement>)
    requires i < |s|
    ensures Adds(s, i, ss, ExpressionTurn(s, i, ss))
  {
    hide Adds, IdentifierEnd, HasAt, Delimiter, ScanFrom, NamedAt;
    var t := ExpressionTurn(s, i, ss);
    if t.Stop? {
      StopAdds(s, i, ss, t);
    } else {
      var e := ScanFrom(s, i, []).index;
      var b := SkipBlanks(s, e);
      if b >= |s| - 2 || (s[b] != 'a' && s[b + 1] != 's') {
        ExpressionAlone(s, i, e, b, ss);
      } else {
        var x := SkipBlanks(s, b + 2);
        ExpressionWithLocal(s, i, e, x, Identifier(s, x, true).index, ss);
      }
    }
  }

  lemma KeyLocalAdds(s: Text, i: nat, key: Named, expression: Named, e: nat, ss: seq<Statement>)
    requires i <= e <= |s| && Faithful(s, [key, expression], i, e)
    ensures Adds(s, i, ss, KeyLocal(s, key, expression, e, ss))
  {
    hide ScanFrom;
    var t := KeyLocal(s, key, expression, e, ss);
    if t.Go? {
      var st := t.statements[|ss|];
      assert t.statements == ss + [st];
      var hi := Capped(s, t.index);
      var local := LocalFields(st.local);
      assert Faithful(s, local, e, hi);
      FaithfulJoin(s, [key, expression], local, i, e, hi);
    }
  }

  lemma KeyAdds(s: Text, i: nat, ss: seq<Statement>)
    requires i < |s|
    ensures Adds(s, i, ss, KeyTurn(s, i, ss))
  {
    hide ScanFrom, KeyLocal, IdentifierEnd, Faithful, Adds;
    var t := KeyTurn(s, i, ss);
    if t.Stop? {
      StopAdds(s, i, ss, t);
    } else {
      var k := Identifier(s, i, false).index;
      var b := SkipBlanks(s, k);
      var x := SkipBlanks(s, if s[b] == ':' then b + 1 else b);
      var e := ScanFrom(s, x, []).index;
      SlicesFaithful(s, i, i, k, x, e, e);
      assert [NamedAt(s, i, k)] + [NamedAt(s, x, e)] == [NamedAt(s, i, k), NamedAt(s, x, e)];
      KeyLocalAdds(s, i, NamedAt(s, i, k), NamedAt(s, x, e), e, ss);
    }
  }

  /** Span faithfulness: in every successful result each recorded key, expression, local
      and export is the text at its recorded offset, and no two of them overlap or are
      out of order. */
  lemma {:induction false} RunFaithful(s: Text, i: nat, state: LexState, ss: seq<Statement>)
    requires Ready(s, i, state, ss) && i <= |s| + 1
    requires Faithful(s, AllFields(ss), 0, Capped(s, i))
    ensures Run(s, i, state, ss).Parsed? ==> Faithful(s, AllFields(Run(s, i, state, ss).statements), 0, |s|)
    decreases |s| + 1 - i, ss == [], state == Base
  {
    hide BaseTurn, LetTurn, ExpressionTurn, KeyTurn, Faithful, ScanFrom;
    if i >= |s| || (i + 1 == |s| && (s[i] == ',' || s[i] == ';')) {
      FaithfulWiden(s, AllFields(ss), Capped(s, i));
    } else {
      BaseReady(s, i, ss);
      match state {
        case Base =>
        case LetState => LetAdds(s, i, ss);
        case ExpressionState => ExpressionAdds(s, i, ss);
        case KeyExpState => KeyAdds(s, i, ss);
      }
      var t := TurnOf(s, i, state, ss);
      if t.Go? {
        TurnStays(s, i, state, ss);
        StatementsFaithful(s, i, ss, t);
        RunFaithful(s, t.index, t.state, t.statements);
      }
    }
  }

  lemma FaithfulWiden(s: Text, fs: seq<Named>, hi: nat)
    requires Faithful(s, fs, 0, hi) && hi <= |s|
    ensures Faithful(s, fs, 0, |s|)
  {
  }

  lemma StatementsFaithful(s: Text, i: nat, ss: seq<Statement>, t: Turn)
    requires i < |s| && Faithful(s, AllFields(ss), 0, i) && t.Go? && Adds(s, i, ss, t)
    ensures Faithful(s, AllFields(t.statements), 0, Capped(s, t.index))
  {
    var hi := Capped(s, t.index);
    if t.statements == ss {
      FaithfulJoin(s, AllFields(ss), [], 0, i, hi);
      assert AllFields(ss) + [] == AllFields(ss);
    } else {
      var st :| t.statements == ss + [st] && Faithful(s, Fields(st), i, hi);
      assert t.statements[..|ss|] == ss;
      FaithfulJoin(s, AllFields(ss), Fields(st), 0, i, hi);
    }
  }

  lemma ParseFaithful(s: Text)
    ensures Parse(s).Parsed? ==> Faithful(s, AllFields(Parse(s).statements), 0, |s|)
  {
    RunFaithful(s, 0, Base, []);
  }
}
