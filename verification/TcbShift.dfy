/** Where the parts of a translated template expression come from: spans that copies
    share, and the one shift that moves them into the template. */
module TcbShift {
  import opened Texts
  import opened TcbMap
  import opened TcbBuilder

  datatype Place = Place(start: int, end: int)

  /** A real part: what it reads, and where that comes from. */
  datatype Mark = Mark(text: Text, place: Place)

  datatype Access = Plain | Safe | NonNull

  /** An expression as the visitors take it apart.  `Token` is any node that becomes one
      real part: a literal, or an identifier that is intrinsic or names a variable. */
  datatype Expr =
    | Token(text: Text, place: Place)
    | Identifier(name: Text, place: Place, bang: bool)
    | Unary(op: Text, opPlace: Place, value: Expr)
    | Binary(left: Expr, op: Text, opPlace: Place, right: Expr)
    | Conditional(condition: Expr, consequence: Expr, alternative: Expr)
    | Group(inner: Expr)
    | Template(elements: Exprs)
    | Keyed(access: Access, object: Expr, key: Expr)
    | Member(access: Access, object: Expr, name: Text, place: Place)
    | Write(target: Expr, value: Expr)
    | Object(pairs: Pairs)
    | Call(access: Access, function_: Expr, chain: Place, args: Exprs)
    | AnyCast(arg: Expr)
    | Array(start: nat, elements: Exprs)

  datatype Exprs = Nil | Cons(head: Expr, tail: Exprs)

  /** A `Lone` key has no value of its own. */
  datatype Pairs =
    | NoPairs
    | Pair(key: Text, place: Place, value: Expr, tail: Pairs)
    | Lone(key: Text, place: Place, tail: Pairs)

  // ----- the places a translation has -----

  function Moved(places: seq<Mark>, by_: int): (r: seq<Mark>)
    ensures |r| == |places| && forall i :: 0 <= i < |places| ==>
              r[i] == Shifted(places[i], by_)
  {
    seq(|places|, i requires 0 <= i < |places| => Shifted(places[i], by_))
  }

  function Shifted(m: Mark, by_: int): Mark {
    m.(place := Place(m.place.start + by_, m.place.end + by_))
  }

  /** The texts and places of the expression's own nodes, in the order they are written;
      `twice` moves the elements of an array by the array's start. */
  function Places(e: Expr, twice: bool): seq<Mark> {
    match e
    case Token(text, p) => [Mark(text, p)]
    case Identifier(name, p, _) => [Mark(name, p)]
    case Unary(op, p, value) => [Mark(op, p)] + Places(value, twice)
    case Binary(l, op, p, r) => Places(l, twice) + [Mark(op, p)] + Places(r, twice)
    case Conditional(c, t, f) => Places(c, twice) + Places(t, twice) + Places(f, twice)
    case Group(inner) => Places(inner, twice)
    case Template(elements) => PlacesAll(elements, twice, 0)
    case Keyed(_, o, key) => Places(o, twice) + Places(key, twice)
    case Member(_, o, name, p) => Places(o, twice) + [Mark(name, p)]
    case Write(target, value) => Places(target, twice) + Places(value, twice)
    case Object(pairs) => PlacesOfPairs(pairs, twice)
    case Call(access, f, chain, args) =>
      Places(f, twice) + ChainMarks(access, chain) + PlacesAll(args, twice, 0)
    case AnyCast(arg) => Places(arg, twice)
    case Array(start, elements) => PlacesAll(elements, twice, if twice then start else 0)
  }

  /** A chained call is traced to its `!.`. */
  function ChainMarks(access: Access, chain: Place): seq<Mark> {
    if access.NonNull? then [Mark("!.", chain)] else []
  }

  function Quoted(key: Text): Text {
    "\"" + key + "\""
  }

  function PlacesAll(es: Exprs, twice: bool, start: nat): seq<Mark> {
    match es
    case Nil => []
    case Cons(e, rest) => Moved(Places(e, twice), start) + PlacesAll(rest, twice, start)
  }

  function PlacesOfPairs(ps: Pairs, twice: bool): seq<Mark> {
    match ps
    case NoPairs => []
    case Pair(key, p, value, rest) => [Mark(Quoted(key), p)] + Places(value, twice) + PlacesOfPairs(rest, twice)
    case Lone(key, p, rest) => [Mark(Quoted(key), p)] + PlacesOfPairs(rest, twice)
  }

  // ----- shared spans -----

  ghost function SpansOf(parts: seq<Part>): set<PugSpan> {
    set p <- parts | p.pug != null :: p.pug
  }

  /** How many real parts share the span `o`. */
  ghost function Uses(parts: seq<Part>, o: PugSpan): nat
    decreases |parts|
  {
    if parts == [] then 0 else Uses(parts[..|parts| - 1], o) + if parts[|parts| - 1].pug == o then 1 else 0
  }

  /** The real parts, in order. */
  ghost function RealParts(parts: seq<Part>): (r: seq<Part>)
    ensures (forall p <- r :: p.pug != null) && (set p <- r | p.pug != null :: p.pug) == SpansOf(parts)
    decreases |parts|
  {
    if parts == [] then []
    else
      var front, p := parts[..|parts| - 1], parts[|parts| - 1];
      assert SpansOf(parts) == SpansOf(front) + if p.pug == null then {} else {p.pug};
      RealParts(front) + if p.pug == null then [] else [p]
  }

  ghost function MarkOf(p: Part): Mark
    requires p.pug != null
    reads p.pug
  {
    Mark(p.text, Place(p.pug.startOffset, p.pug.endOffset))
  }

  ghost function ReadAll(rs: seq<Part>): (r: seq<Mark>)
    requires forall p <- rs :: p.pug != null
    reads set p <- rs | p.pug != null :: p.pug
    ensures |r| == |rs| && forall i :: 0 <= i < |rs| ==> r[i] == MarkOf(rs[i])
  {
    seq(|rs|, i requires 0 <= i < |rs| reads set p <- rs | p.pug != null :: p.pug => MarkOf(rs[i]))
  }

  /** What the real parts read and where they come from, in order. */
  ghost function Traced(parts: seq<Part>): seq<Mark>
    reads SpansOf(parts)
  {
    ReadAll(RealParts(parts))
  }

  /** No two real parts share a span. */
  ghost predicate Unshared(parts: seq<Part>) {
    forall i, j :: 0 <= i < j < |parts| && parts[i].pug != null ==> parts[i].pug != parts[j].pug
  }

  lemma {:induction false} UsesNone(parts: seq<Part>, o: PugSpan)
    ensures Uses(parts, o) == 0 <==> o !in SpansOf(parts)
    decreases |parts|
  {
    if parts != [] {
      var front := parts[..|parts| - 1];
      UsesNone(front, o);
      assert SpansOf(parts) == SpansOf(front) + (if parts[|parts| - 1].pug == null then {}
          else {parts[|parts| - 1].pug});
    }
  }

  lemma {:induction false} UsedOnce(parts: seq<Part>, o: PugSpan)
    requires Unshared(parts)
    ensures Uses(parts, o) <= 1
    decreases |parts|
  {
    if parts != [] {
      var front := parts[..|parts| - 1];
      UsedOnce(front, o);
      UsesNone(front, o);
    }
  }

  lemma NoUses(parts: seq<Part>, offset: int)
    ensures forall o: PugSpan :: Uses(parts[..0], o) * offset == 0
  {
  }

  lemma OneMoreUse(parts: seq<Part>, i: nat, o: PugSpan, offset: int)
    requires i < |parts|
    ensures Uses(parts[..i + 1], o) * offset == Uses(parts[..i], o) * offset + if parts[i].pug == o then offset else 0
  {
    assert parts[..i + 1][..i] == parts[..i];
  }

  /** `OffsetByOffset`: a span moves once for every real part that shares it. */
  method OffsetByOffset(parts: seq<Part>, offset: int)
    modifies SpansOf(parts)
    ensures forall o <- SpansOf(parts) ::
              && o.startOffset == old(o.startOffset) + Uses(parts, o) * offset
              && o.endOffset == old(o.endOffset) + Uses(parts, o) * offset
  {
    hide Uses;
    NoUses(parts, offset);
    for i := 0 to |parts|
      invariant forall o <- SpansOf(parts) ::
                  && o.startOffset == old(o.startOffset) + Uses(parts[..i], o) * offset
                  && o.endOffset == old(o.endOffset) + Uses(parts[..i], o) * offset
    {
      var p := parts[i];
      forall o | o in SpansOf(parts) {
        OneMoreUse(parts, i, o, offset);
      }
      if p.pug != null {
        assert p.pug in SpansOf(parts);
        p.pug.startOffset := p.pug.startOffset + offset;
        p.pug.endOffset := p.pug.endOffset + offset;
      }
    }
    assert parts[..|parts|] == parts;
  }

  // ----- translating -----

  /** A statement that reads `code`, whose real parts share no span and are traced to
      `places`. */
  ghost predicate Translated(s: Statement, code: Text, places: seq<Mark>)
    reads s, SpansOf(s.Parts)
  {
    AllTimed(s.Parts) && Unshared(s.Parts) && Traced(s.Parts) == places && Render(s.Parts) == code
  }

  lemma TracedMore(parts: seq<Part>, p: Part)
    ensures Traced(parts + [p]) == Traced(parts) + if p.pug == null then []
              else [MarkOf(p)]
    ensures SpansOf(parts + [p]) == SpansOf(parts) + if p.pug == null then {} else {p.pug}
  {
    var r := parts + [p];
    assert r[..|parts|] == parts;
    assert forall x :: x in r <==> x in parts || x == p;
    assert RealParts(r) == RealParts(parts) + if p.pug == null then [] else [p];
  }

  lemma TracedNothing()
    ensures Traced([]) == [] && SpansOf([]) == {}
  {
  }

  lemma UnsharedMore(parts: seq<Part>, p: Part)
    requires Unshared(parts) && (p.pug == null || p.pug !in SpansOf(parts))
    ensures Unshared(parts + [p])
  {
    assert forall i :: 0 <= i < |parts| && parts[i].pug != null ==> parts[i].pug in SpansOf(parts);
  }

  /** Copies are traced like their originals. */
  lemma {:induction false} TracedCopies(b: Built, parts: seq<Part>, id: nat)
    requires AllTimed(parts)
    ensures var r := V.AddStatement(b, parts, id);
            && Traced(r.parts) == Traced(b.parts) + Traced(parts)
            && SpansOf(r.parts) == SpansOf(b.parts) + SpansOf(parts)
    decreases |parts|
  {
    hide Traced, SpansOf;
    if parts == [] {
      TracedNothing();
    } else {
      var front := parts[..|parts| - 1];
      var p := parts[|parts| - 1];
      TracedCopies(b, front, id);
      assert parts == front + [p];
      TracedMore(front, p);
      var f := V.AddStatement(b, front, id);
      TracedMore(f.parts, CopyAt(p, id + |parts| - 1, f.sb));
    }
  }

  lemma UnsharedCopies(b: Built, parts: seq<Part>, id: nat)
    requires AllTimed(parts) && Unshared(b.parts) && Unshared(parts) && SpansOf(b.parts) !! SpansOf(parts)
    ensures Unshared(V.AddStatement(b, parts, id).parts)
  {
    hide V.AddStatement;
    AddStatementShape(b, parts, id);
    var r := V.AddStatement(b, parts, id).parts;
    var n := |b.parts|;
    forall i, j | 0 <= i < j < |r| && r[i].pug != null
      ensures r[i].pug != r[j].pug
    {
      assert i < n ==> r[i] == r[..n][i];
      assert j < n ==> r[j] == r[..n][j];
      if n <= j {
        assert IsCopy(parts[j - n], r[j]);
        if n <= i {
          assert IsCopy(parts[i - n], r[i]);
        } else if r[j].pug != null {
          assert b.parts[i].pug in SpansOf(b.parts) && parts[j - n].pug in SpansOf(parts);
        }
      }
    }
  }

  method AddVirtual(s: Statement, text: Text, ghost code: Text, ghost places: seq<Mark>)
    requires Translated(s, code, places)
    modifies s
    ensures Translated(s, code + text, places) && SpansOf(s.Parts) == old(SpansOf(s.Parts))
  {
    hide Traced, Unshared, Render;
    ghost var was := s.Value();
    s.AddRealPart(text, null, 0);
    ghost var p := s.Parts[|was.parts|];
    TracedMore(was.parts, p);
    UnsharedMore(was.parts, p);
    TcbScopes.RenderPart(was, p);
  }

  method AddReal(s: Statement, text: Text, place: Place, ghost code: Text, ghost places: seq<Mark>)
    requires Translated(s, code, places)
    modifies s
    ensures Translated(s, code + text, places + [Mark(text, place)])
    ensures SpansOf(s.Parts) >= old(SpansOf(s.Parts)) && fresh(SpansOf(s.Parts) - old(SpansOf(s.Parts)))
  {
    hide Traced, Unshared, Render;
    ghost var was := s.Value();
    var pug := new PugSpan(place.start, place.end);
    s.AddRealPart(text, pug, 0);
    ghost var p := s.Parts[|was.parts|];
    TracedMore(was.parts, p);
    UnsharedMore(was.parts, p);
    TcbScopes.RenderPart(was, p);
  }

  method AddCopy(s: Statement, inner: Statement, ghost code: Text, ghost places: seq<Mark>, ghost code': Text,
      ghost places': seq<Mark>)
    requires Translated(s, code, places) && Translated(inner, code', places') && s != inner
             && SpansOf(s.Parts) !! SpansOf(inner.Parts)
    modifies s
    ensures Translated(s, code + code', places + places')
            && SpansOf(s.Parts) == old(SpansOf(s.Parts)) + SpansOf(inner.Parts)
  {
    hide Traced, Unshared, Render, V.AddStatement;
    ghost var b := s.Value();
    s.AddStatement(inner.Parts, 0);
    TracedCopies(b, inner.Parts, 0);
    UnsharedCopies(b, inner.Parts, 0);
    TimedCopies(b, inner.Parts, 0);
    TcbScopes.RenderStatement(b, inner.Parts, 0);
  }

  lemma TimedCopies(b: Built, parts: seq<Part>, id: nat)
    requires AllTimed(parts) && AllTimed(b.parts)
    ensures AllTimed(V.AddStatement(b, parts, id).parts)
  {
    hide V.AddStatement;
    AddStatementShape(b, parts, id);
    var r := V.AddStatement(b, parts, id).parts;
    forall i | 0 <= i < |r|
      ensures Timed(r[i])
    {
      if i < |b.parts| {
        assert r[i] == r[..|b.parts|][i];
      } else {
        assert IsCopy(parts[i - |b.parts|], r[i]);
      }
    }
  }

  // ----- the visitors -----

  /** What a visitor does, in order: writes text of its own or of a node, copies in the
      translation of a sub-expression (shifted first, in an array), or copies in a
      statement put together on the side. */
  datatype Pieces =
    | Done
    | Virt(text: Text, rest: Pieces)
    | Real(text: Text, place: Place, rest: Pieces)
    | Sub(e: Expr, shift: nat, rest: Pieces)
    | Nest(inner: Pieces, rest: Pieces)

  const NULL_AS_ANY := "0 as any"
  const UNDEFINED := "undefined"

  /** Only smaller expressions are translated. */
  ghost predicate Below(ps: Pieces, e: Expr) {
    match ps
    case Done => true
    case Virt(_, rest) => Below(rest, e)
    case Real(_, _, rest) => Below(rest, e)
    case Sub(x, _, rest) => x < e && Below(rest, e)
    case Nest(inner, rest) => Below(inner, e) && Below(rest, e)
  }

  /** `(0 as any ? inner : undefined)`, put together on the side. */
  function Guarded(inner: Pieces, rest: Pieces): Pieces {
    Nest(Virt("(", Virt(NULL_AS_ANY, Virt(" ? ", Nest(inner, Virt(" : ", Virt(UNDEFINED, Virt(")", Done))))))), rest)
  }

  function VisitKeyed(access: Access, o: Expr, key: Expr): Pieces {
    match access
    case Safe => Guarded(Sub(o, 0, Virt("![", Sub(key, 0, Virt("]", Done)))), Done)
    case NonNull => Sub(o, 0, Virt("!", Virt("[", Sub(key, 0, Virt("]", Done)))))
    case Plain => Sub(o, 0, Virt("[", Sub(key, 0, Virt("]", Done))))
  }

  function VisitMember(access: Access, o: Expr, name: Text, p: Place): Pieces {
    var nameParts := Nest(Real(name, p, Done), Done);
    match access
    case Safe => Guarded(Sub(o, 0, Virt("!.", nameParts)), Done)
    case NonNull => Sub(o, 0, Virt("!.", nameParts))
    case Plain => Sub(o, 0, Virt(".", nameParts))
  }

  /** A call with its arguments already taken apart. */
  function VisitCall(access: Access, f: Expr, chain: Place, args: Pieces): Pieces {
    match access
    case Safe => Nest(Virt("(", Guarded(Nest(Sub(f, 0, Virt("!", Done)), args), Virt(")", Done))), Done)
    case NonNull => Sub(f, 0, Real("!.", chain, args))
    case Plain => Sub(f, 0, args)
  }

  function Visit(e: Expr): Pieces {
    match e
    case Token(text, p) => Real(text, p, Done)
    case Identifier(name, p, bang) => Virt("this.", Real(name, p, if bang then Virt("!", Done) else Done))
    case Unary(op, p, value) => Real(op, p, Sub(value, 0, Done))
    case Binary(l, op, p, r) => Sub(l, 0, Real(op, p, Sub(r, 0, Done)))
    case Conditional(c, t, f) => Sub(c, 0, Virt(" ? ", Sub(t, 0, Virt(" : ", Sub(f, 0, Done)))))
    case Group(inner) => Virt("(", Sub(inner, 0, Virt(")", Done)))
    case Template(elements) => if elements.Nil? then Done else Virt("''", VisitElements(elements))
    case Keyed(access, o, key) => VisitKeyed(access, o, key)
    case Member(access, o, name, p) => VisitMember(access, o, name, p)
    case Write(target, value) => Virt("(", Sub(target, 0, Virt(" = ", Sub(value, 0, Virt(")", Done)))))
    case Object(pairs) => Virt("{", VisitPairs(pairs, true))
    case Call(access, f, chain, args) => VisitCall(access, f, chain, Virt("(", VisitArgs(args, 0, true, ")")))
    case AnyCast(arg) => Virt("(", Sub(arg, 0, Virt(" as any)", Done)))
    case Array(start, elements) => Virt("[", VisitArgs(elements, start, true, "]"))
  }

  function VisitElements(es: Exprs): Pieces {
    match es
    case Nil => Done
    case Cons(x, rest) => Virt(" + ", Sub(x, 0, VisitElements(rest)))
  }

  function VisitArgs(es: Exprs, shift: nat, first: bool, end: Text): Pieces {
    match es
    case Nil => Virt(end, Done)
    case Cons(x, rest) =>
      var sub := Sub(x, shift, VisitArgs(rest, shift, false, end));
      if first then sub else Virt(", ", sub)
  }

  function VisitPairs(pairs: Pairs, first: bool): Pieces {
    match pairs
    case NoPairs => Virt("}", Done)
    case Pair(key, p, value, rest) =>
      var sub := Real(Quoted(key), p, Virt(": ", Sub(value, 0, VisitPairs(rest, false))));
      if first then sub else Virt(", ", sub)
    case Lone(key, p, rest) =>
      var sub := Real(Quoted(key), p, Virt(": ", Nest(Virt(NULL_AS_ANY, Done), VisitPairs(rest, false))));
      if first then sub else Virt(", ", sub)
  }

  ghost function PlacesOf(ps: Pieces): seq<Mark> {
    match ps
    case Done => []
    case Virt(_, rest) => PlacesOf(rest)
    case Real(text, p, rest) => [Mark(text, p)] + PlacesOf(rest)
    case Sub(x, shift, rest) => Moved(Places(x, true), shift) + PlacesOf(rest)
    case Nest(inner, rest) => PlacesOf(inner) + PlacesOf(rest)
  }

  // ----- the text of a translation -----

  function Code(e: Expr): Text {
    match e
    case Token(text, _) => text
    case Identifier(name, _, bang) => "this." + name + (if bang then "!" else "")
    case Unary(op, _, value) => op + Code(value)
    case Binary(l, op, _, r) => Code(l) + op + Code(r)
    case Conditional(c, t, f) => Code(c) + " ? " + Code(t) + " : " + Code(f)
    case Group(inner) => "(" + Code(inner) + ")"
    case Template(elements) => if elements.Nil? then "" else "''" + CodeElements(elements)
    case Keyed(access, o, key) => CodeKeyed(access, Code(o), Code(key))
    case Member(access, o, name, _) => CodeMember(access, Code(o), name)
    case Write(target, value) => "(" + Code(target) + " = " + Code(value) + ")"
    case Object(pairs) => "{" + CodePairs(pairs, true)
    case Call(access, f, _, args) => CodeCall(access, Code(f), "(" + CodeArgs(args, true) + ")")
    case AnyCast(arg) => "(" + Code(arg) + " as any)"
    case Array(_, elements) => "[" + CodeArgs(elements, true) + "]"
  }

  function IfDefined(code: Text): Text {
    "(0 as any ? " + code + " : undefined)"
  }

  function CodeKeyed(access: Access, o: Text, key: Text): Text {
    match access
    case Safe => IfDefined(o + "![" + key + "]")
    case NonNull => o + "![" + key + "]"
    case Plain => o + "[" + key + "]"
  }

  function CodeMember(access: Access, o: Text, name: Text): Text {
    match access
    case Safe => IfDefined(o + "!." + name)
    case NonNull => o + "!." + name
    case Plain => o + "." + name
  }

  function CodeCall(access: Access, f: Text, args: Text): Text {
    match access
    case Safe => "(" + IfDefined(f + "!" + args) + ")"
    case NonNull => f + "!." + args
    case Plain => f + args
  }

  function CodeElements(es: Exprs): Text {
    match es
    case Nil => ""
    case Cons(x, rest) => " + " + Code(x) + CodeElements(rest)
  }

  function CodeArgs(es: Exprs, first: bool): Text {
    match es
    case Nil => ""
    case Cons(x, rest) => (if first then "" else ", ") + Code(x) + CodeArgs(rest, false)
  }

  function CodePairs(ps: Pairs, first: bool): Text {
    match ps
    case NoPairs => "}"
    case Pair(key, _, value, rest) => (if first then "" else ", ") + "\"" + key + "\": " + Code(value) +
        CodePairs(rest, false)
    case Lone(key, _, rest) => (if first then "" else ", ") + "\"" + key + "\": 0 as any" + CodePairs(rest, false)
  }

  ghost function CodeOf(ps: Pieces): Text {
    match ps
    case Done => ""
    case Virt(text, rest) => text + CodeOf(rest)
    case Real(text, _, rest) => text + CodeOf(rest)
    case Sub(x, _, rest) => Code(x) + CodeOf(rest)
    case Nest(inner, rest) => CodeOf(inner) + CodeOf(rest)
  }

  // ----- what the visitors' pieces amount to -----

  /** The pieces read `code`, are traced to `places`, and translate smaller expressions
      only. */
  ghost predicate Amounts(ps: Pieces, e: Expr, code: Text, places: seq<Mark>) {
    Below(ps, e) && CodeOf(ps) == code && PlacesOf(ps) == places
  }

  lemma AmountsDone(e: Expr)
    ensures Amounts(Done, e, "", [])
  {
  }

  lemma AmountsVirt(text: Text, rest: Pieces, e: Expr, code: Text, places: seq<Mark>)
    requires Amounts(rest, e, code, places)
    ensures Amounts(Virt(text, rest), e, text + code, places)
  {
  }

  lemma AmountsReal(text: Text, place: Place, rest: Pieces, e: Expr, code: Text, places: seq<Mark>)
    requires Amounts(rest, e, code, places)
    ensures Amounts(Real(text, place, rest), e, text + code, [Mark(text, place)] + places)
  {
  }

  lemma AmountsSub(x: Expr, shift: nat, rest: Pieces, e: Expr, code: Text, places: seq<Mark>)
    requires x < e && Amounts(rest, e, code, places)
    ensures Amounts(Sub(x, shift, rest), e, Code(x) + code, Moved(Places(x, true), shift) + places)
    ensures shift == 0 ==> Amounts(Sub(x, shift, rest), e, Code(x) + code, Places(x, true) + places)
  {
    assert Moved(Places(x, true), 0) == Places(x, true);
  }

  lemma AmountsNest(inner: Pieces, rest: Pieces, e: Expr, code: Text, places: seq<Mark>, code': Text,
      places': seq<Mark>)
    requires Amounts(inner, e, code, places) && Amounts(rest, e, code', places')
    ensures Amounts(Nest(inner, rest), e, code + code', places + places')
  {
  }

  /** A sub-expression and one text behind it. */
  lemma AmountsClosed(x: Expr, text: Text, e: Expr)
    requires x < e
    ensures Amounts(Sub(x, 0, Virt(text, Done)), e, Code(x) + text, Places(x, true))
    ensures Amounts(Sub(x, 0, Done), e, Code(x), Places(x, true))
  {
    hide Amounts;
    AmountsDone(e);
    AmountsVirt(text, Done, e, "", []);
    AmountsSub(x, 0, Virt(text, Done), e, text + "", []);
    AmountsSub(x, 0, Done, e, "", []);
    assert text + "" == text && Code(x) + "" == Code(x);
    assert Places(x, true) + [] == Places(x, true);
  }

  lemma AmountsGuarded(inner: Pieces, rest: Pieces, e: Expr, code: Text, places: seq<Mark>, code': Text,
      places': seq<Mark>)
    requires Amounts(inner, e, code, places) && Amounts(rest, e, code', places')
    ensures Amounts(Guarded(inner, rest), e, IfDefined(code) + code', places + places')
  {
    hide Amounts;
    AmountsDone(e);
    AmountsVirt(")", Done, e, "", []);
    AmountsVirt(UNDEFINED, Virt(")", Done), e, ")" + "", []);
    var p1 := Virt(" : ", Virt(UNDEFINED, Virt(")", Done)));
    AmountsVirt(" : ", p1.rest, e, UNDEFINED + (")" + ""), []);
    AmountsNest(inner, p1, e, code, places, " : " + (UNDEFINED + (")" + "")), []);
    var c2 := code + (" : " + (UNDEFINED + (")" + "")));
    var p2 := Nest(inner, p1);
    AmountsVirt(" ? ", p2, e, c2, places + []);
    AmountsVirt(NULL_AS_ANY, Virt(" ? ", p2), e, " ? " + c2, places + []);
    AmountsVirt("(", Virt(NULL_AS_ANY, Virt(" ? ", p2)), e, NULL_AS_ANY + (" ? " + c2), places + []);
    var c3 := "(" + (NULL_AS_ANY + (" ? " + c2));
    AmountsNest(Virt("(", Virt(NULL_AS_ANY, Virt(" ? ", p2))), rest, e, c3, places + [], code', places');
    assert places + [] == places;
    assert c3 == IfDefined(code);
  }

  lemma {:induction false} VisitElementsAmount(es: Exprs, e: Expr)
    requires es < e
    ensures Amounts(VisitElements(es), e, CodeElements(es), PlacesAll(es, true, 0))
    decreases es
  {
    hide Amounts;
    match es
    case Nil => AmountsDone(e);
    case Cons(x, rest) =>
      VisitElementsAmount(rest, e);
      AmountsSub(x, 0, VisitElements(rest), e, CodeElements(rest), PlacesAll(rest, true, 0));
      var code := Code(x) + CodeElements(rest);
      AmountsVirt(" + ", Sub(x, 0, VisitElements(rest)), e, code, PlacesAll(es, true, 0));
      assert " + " + code == CodeElements(es);
  }

  lemma {:induction false} VisitArgsAmount(es: Exprs, e: Expr, shift: nat, first: bool, end: Text)
    requires es < e
    ensures Amounts(VisitArgs(es, shift, first, end), e, CodeArgs(es, first) + end, PlacesAll(es, true, shift))
    decreases es
  {
    hide Amounts;
    match es
    case Nil =>
      AmountsDone(e);
      AmountsVirt(end, Done, e, "", []);
      assert end + "" == CodeArgs(es, first) + end;
    case Cons(x, rest) =>
      VisitArgsAmount(rest, e, shift, false, end);
      var code := Code(x) + (CodeArgs(rest, false) + end);
      var sub := Sub(x, shift, VisitArgs(rest, shift, false, end));
      AmountsSub(x, shift, VisitArgs(rest, shift, false, end), e, CodeArgs(rest, false) + end,
          PlacesAll(rest, true, shift));
      AmountsVirt(", ", sub, e, code, PlacesAll(es, true, shift));
      assert (if first then "" else ", ") + code == CodeArgs(es, first) + end;
      assert first ==> "" + code == code;
  }

  lemma {:induction false} VisitPairsAmount(ps: Pairs, e: Expr, first: bool)
    requires ps < e
    ensures Amounts(VisitPairs(ps, first), e, CodePairs(ps, first), PlacesOfPairs(ps, true))
    decreases ps
  {
    hide Amounts;
    match ps
    case NoPairs =>
      AmountsDone(e);
      AmountsVirt("}", Done, e, "", []);
      assert "}" + "" == "}";
    case Pair(key, p, value, rest) =>
      VisitPairsAmount(rest, e, false);
      AmountsSub(value, 0, VisitPairs(rest, false), e, CodePairs(rest, false), PlacesOfPairs(rest, true));
      PairAmount(key, p, Sub(value, 0, VisitPairs(rest, false)), e, Code(value) + CodePairs(rest, false),
                 Places(value, true) + PlacesOfPairs(rest, true), first);
      PairCode(key, first, Code(value), CodePairs(rest, false));
      PairPlaces(Mark(Quoted(key), p), Places(value, true), PlacesOfPairs(rest, true));
    case Lone(key, p, rest) =>
      VisitPairsAmount(rest, e, false);
      LoneAmount(key, p, VisitPairs(rest, false), e, CodePairs(rest, false), PlacesOfPairs(rest, true), first);
  }

  lemma PairCode(key: Text, first: bool, value: Text, rest: Text)
    ensures (if first then "" else ", ") + "\"" + key + "\": " + value + rest ==
            (if first then "" else ", ") + ("\"" + key + "\"" + (": " + (value + rest)))
  {
  }

  lemma PairPlaces(p: Mark, value: seq<Mark>, rest: seq<Mark>)
    ensures [p] + value + rest == [p] + (value + rest)
  {
  }

  lemma LoneAmount(key: Text, p: Place, tail: Pieces, e: Expr, code: Text, places: seq<Mark>, first: bool)
    requires Amounts(tail, e, code, places)
    ensures var sub := Real(Quoted(key), p, Virt(": ", Nest(Virt(NULL_AS_ANY, Done), tail)));
            Amounts(if first then sub else Virt(", ", sub), e,
                    (if first then "" else ", ") + "\"" + key + "\": 0 as any" + code, [Mark(Quoted(key), p)] + places)
  {
    hide Amounts;
    AmountsDone(e);
    AmountsVirt(NULL_AS_ANY, Done, e, "", []);
    AmountsNest(Virt(NULL_AS_ANY, Done), tail, e, NULL_AS_ANY + "", [], code, places);
    PairAmount(key, p, Nest(Virt(NULL_AS_ANY, Done), tail), e, NULL_AS_ANY + "" + code, [] + places, first);
    assert NULL_AS_ANY + "" == NULL_AS_ANY && [] + places == places;
    PairCode(key, first, NULL_AS_ANY, code);
    assert "\": 0 as any" == "\": " + NULL_AS_ANY;
    assert (if first then "" else ", ") + "\"" + key + "\": 0 as any" + code
           == (if first then "" else ", ") + "\"" + key + "\": " + NULL_AS_ANY + code;
  }

  lemma PairAmount(key: Text, p: Place, value: Pieces, e: Expr, code: Text, places: seq<Mark>, first: bool)
    requires Amounts(value, e, code, places)
    ensures var sub := Real(Quoted(key), p, Virt(": ", value));
            Amounts(if first then sub else Virt(", ", sub), e,
                    (if first then "" else ", ") + (Quoted(key) + (": " + code)), [Mark(Quoted(key), p)] + places)
  {
    hide Amounts;
    AmountsVirt(": ", value, e, code, places);
    AmountsReal(Quoted(key), p, Virt(": ", value), e, ": " + code, places);
    var text := "\"" + key + "\"" + (": " + code);
    AmountsVirt(", ", Real(Quoted(key), p, Virt(": ", value)), e, text, [Mark(Quoted(key), p)] + places);
    assert "" + text == text;
  }

  /** `(x sep y end` without the opening text. */
  lemma AmountsTwo(x: Expr, sep: Text, y: Expr, end: Text, e: Expr)
    requires x < e && y < e
    ensures Amounts(Sub(x, 0, Virt(sep, Sub(y, 0, Virt(end, Done)))), e, Code(x) + sep + Code(y) + end,
            Places(x, true) + Places(y, true))
  {
    hide Amounts;
    AmountsClosed(y, end, e);
    AmountsVirt(sep, Sub(y, 0, Virt(end, Done)), e, Code(y) + end, Places(y, true));
    AmountsSub(x, 0, Virt(sep, Sub(y, 0, Virt(end, Done))), e, sep + (Code(y) + end), Places(y, true));
    assert Code(x) + sep + Code(y) + end == Code(x) + (sep + (Code(y) + end));
  }

  lemma GuardedAlone(inner: Pieces, e: Expr, code: Text, places: seq<Mark>)
    requires Amounts(inner, e, code, places)
    ensures Amounts(Guarded(inner, Done), e, IfDefined(code), places)
  {
    hide Amounts;
    AmountsDone(e);
    AmountsGuarded(inner, Done, e, code, places, "", []);
    assert IfDefined(code) + "" == IfDefined(code) && places + [] == places;
  }

  lemma KeyedAmount(access: Access, o: Expr, key: Expr, e: Expr)
    requires o < e && key < e
    ensures Amounts(VisitKeyed(access, o, key), e, CodeKeyed(access, Code(o), Code(key)),
            Places(o, true) + Places(key, true))
  {
    hide Amounts;
    match access
    case Safe =>
      AmountsTwo(o, "![", key, "]", e);
      GuardedAlone(Sub(o, 0, Virt("![", Sub(key, 0, Virt("]", Done)))), e, Code(o) + "![" + Code(key) + "]",
          Places(o, true) + Places(key, true));
    case NonNull =>
      AmountsClosed(key, "]", e);
      var k := Sub(key, 0, Virt("]", Done));
      AmountsVirt("[", k, e, Code(key) + "]", Places(key, true));
      AmountsVirt("!", Virt("[", k), e, "[" + (Code(key) + "]"), Places(key, true));
      AmountsSub(o, 0, Virt("!", Virt("[", k)), e, "!" + ("[" + (Code(key) + "]")), Places(key, true));
      assert Code(o) + ("!" + ("[" + (Code(key) + "]"))) == Code(o) + "![" + Code(key) + "]";
    case Plain => AmountsTwo(o, "[", key, "]", e);
  }

  lemma MemberAmount(access: Access, o: Expr, name: Text, p: Place, e: Expr)
    requires o < e
    ensures Amounts(VisitMember(access, o, name, p), e, CodeMember(access, Code(o), name),
                    Places(o, true) + [Mark(name, p)])
  {
    hide Amounts;
    AmountsDone(e);
    AmountsReal(name, p, Done, e, "", []);
    var m := [Mark(name, p)];
    AmountsNest(Real(name, p, Done), Done, e, name + "", m + [], "", []);
    assert name + "" + "" == name && m + [] + [] == m;
    var dot := if access.Plain? then "." else "!.";
    var nest := Nest(Real(name, p, Done), Done);
    AmountsVirt(dot, nest, e, name, m);
    AmountsSub(o, 0, Virt(dot, nest), e, dot + name, m);
    assert Code(o) + (dot + name) == Code(o) + dot + name;
    if access.Safe? {
      GuardedAlone(Sub(o, 0, Virt(dot, nest)), e, Code(o) + dot + name, Places(o, true) + m);
    }
  }

  lemma CallAmount(access: Access, f: Expr, chain: Place, args: Pieces, e: Expr, code: Text, places: seq<Mark>)
    requires f < e && Amounts(args, e, code, places)
    ensures Amounts(VisitCall(access, f, chain, args), e, CodeCall(access, Code(f), code),
                    Places(f, true) + ChainMarks(access, chain) + places)
  {
    hide Amounts;
    match access
    case Safe =>
      AmountsDone(e);
      AmountsClosed(f, "!", e);
      var call := Nest(Sub(f, 0, Virt("!", Done)), args);
      AmountsNest(Sub(f, 0, Virt("!", Done)), args, e, Code(f) + "!", Places(f, true), code, places);
      var c, ps := Code(f) + "!" + code, Places(f, true) + places;
      AmountsVirt(")", Done, e, "", []);
      AmountsGuarded(call, Virt(")", Done), e, c, ps, ")" + "", []);
      var guarded := Guarded(call, Virt(")", Done));
      AmountsVirt("(", guarded, e, IfDefined(c) + (")" + ""), ps + []);
      AmountsNest(Virt("(", guarded), Done, e, "(" + (IfDefined(c) + (")" + "")), ps + [], "", []);
      assert "(" + (IfDefined(c) + (")" + "")) + "" == "(" + IfDefined(c) + ")";
      assert ps + [] + [] == Places(f, true) + [] + places;
    case NonNull =>
      AmountsReal("!.", chain, args, e, code, places);
      AmountsSub(f, 0, Real("!.", chain, args), e, "!." + code, [Mark("!.", chain)] + places);
      assert Code(f) + ("!." + code) == Code(f) + "!." + code;
      Associates(Places(f, true), [Mark("!.", chain)], places);
    case Plain =>
      AmountsSub(f, 0, args, e, code, places);
      assert Places(f, true) + [] + places == Places(f, true) + places;
  }

  lemma AmountsThree(x: Expr, sep1: Text, y: Expr, sep2: Text, z: Expr, e: Expr)
    requires x < e && y < e && z < e
    ensures Amounts(Sub(x, 0, Virt(sep1, Sub(y, 0, Virt(sep2, Sub(z, 0, Done))))), e,
                    Code(x) + sep1 + Code(y) + sep2 + Code(z), Places(x, true) + Places(y, true) + Places(z, true))
  {
    hide Amounts, Code, Places;
    AmountsClosed(z, "", e);
    AmountsVirt(sep2, Sub(z, 0, Done), e, Code(z), Places(z, true));
    var p1 := Sub(y, 0, Virt(sep2, Sub(z, 0, Done)));
    AmountsSub(y, 0, p1.rest, e, sep2 + Code(z), Places(z, true));
    AmountsVirt(sep1, p1, e, Code(y) + (sep2 + Code(z)), Places(y, true) + Places(z, true));
    AmountsSub(x, 0, Virt(sep1, p1), e, sep1 + (Code(y) + (sep2 + Code(z))), Places(y, true) + Places(z, true));
    Associates(Code(x), sep1, Code(y) + (sep2 + Code(z)));
    Associates(Code(x) + sep1, Code(y), sep2 + Code(z));
    Associates(Code(x) + sep1 + Code(y), sep2, Code(z));
    Associates(Places(x, true), Places(y, true), Places(z, true));
  }

  lemma ConditionalAmount(c: Expr, t: Expr, f: Expr, e: Expr)
    requires c < e && t < e && f < e
    ensures Amounts(Visit(Conditional(c, t, f)), e, Code(Conditional(c, t, f)), Places(Conditional(c, t, f), true))
  {
    hide Amounts;
    AmountsThree(c, " ? ", t, " : ", f, e);
  }

  lemma OperatorAmount(e: Expr)
    requires e.Token? || e.Unary? || e.Binary? || e.Group?
    ensures Amounts(Visit(e), e, Code(e), Places(e, true))
  {
    hide Amounts;
    AmountsDone(e);
    match e
    case Token(text, p) =>
      AmountsReal(text, p, Done, e, "", []);
      assert text + "" == text && [Mark(text, p)] + [] == [Mark(text, p)];
    case Unary(op, p, value) =>
      AmountsClosed(value, "", e);
      AmountsReal(op, p, Sub(value, 0, Done), e, Code(value), Places(value, true));
    case Binary(l, op, p, r) => BinaryAmount(l, op, p, r, e);
    case Group(inner) =>
      AmountsClosed(inner, ")", e);
      AmountsVirt("(", Sub(inner, 0, Virt(")", Done)), e, Code(inner) + ")", Places(inner, true));
      assert Code(e) == "(" + (Code(inner) + ")");
  }

  lemma BinaryAmount(l: Expr, op: Text, p: Place, r: Expr, e: Expr)
    requires e == Binary(l, op, p, r)
    ensures Amounts(Visit(e), e, Code(e), Places(e, true))
  {
    hide Amounts;
    var m := [Mark(op, p)];
    AmountsClosed(r, "", e);
    AmountsReal(op, p, Sub(r, 0, Done), e, Code(r), Places(r, true));
    AmountsSub(l, 0, Real(op, p, Sub(r, 0, Done)), e, op + Code(r), m + Places(r, true));
    Associates(Code(l), op, Code(r));
    Associates(Places(l, true), m, Places(r, true));
  }

  lemma WriteAmount(target: Expr, value: Expr, e: Expr)
    requires e == Write(target, value)
    ensures Amounts(Visit(e), e, Code(e), Places(e, true))
  {
    hide Amounts;
    AmountsTwo(target, " = ", value, ")", e);
    AmountsVirt("(", Visit(e).rest, e, Code(target) + " = " + Code(value) + ")", Places(e, true));
    Associates("(", Code(target) + " = " + Code(value), ")");
    Associates("(", Code(target) + " = ", Code(value));
    Associates("(", Code(target), " = ");
  }

  lemma CastAmount(arg: Expr, e: Expr)
    requires e == AnyCast(arg)
    ensures Amounts(Visit(e), e, Code(e), Places(e, true))
  {
    hide Amounts;
    AmountsClosed(arg, " as any)", e);
    AmountsVirt("(", Sub(arg, 0, Virt(" as any)", Done)), e, Code(arg) + " as any)", Places(arg, true));
    Associates("(", Code(arg), " as any)");
  }

  lemma ArrayAmount(start: nat, elements: Exprs, e: Expr)
    requires e == Array(start, elements)
    ensures Amounts(Visit(e), e, Code(e), Places(e, true))
  {
    hide Amounts;
    VisitArgsAmount(elements, e, start, true, "]");
    AmountsVirt("[", VisitArgs(elements, start, true, "]"), e, CodeArgs(elements, true) + "]",
        PlacesAll(elements, true, start));
    Associates("[", CodeArgs(elements, true), "]");
  }

  /** Every visitor writes the intended text, and its real parts are those of the
      expression's nodes. */
  lemma VisitAmount(e: Expr)
    ensures Amounts(Visit(e), e, Code(e), Places(e, true))
  {
    hide Amounts, VisitKeyed, VisitMember, VisitCall, VisitArgs, VisitPairs, VisitElements, CodeKeyed, CodeMember,
        CodeCall;
    AmountsDone(e);
    if e.Token? || e.Unary? || e.Binary? || e.Group? {
      OperatorAmount(e);
      return;
    }
    match e
    case Identifier(name, p, bang) => IdentifierAmount(name, p, bang, e);
    case Conditional(c, t, f) => ConditionalAmount(c, t, f, e);
    case Template(elements) =>
      VisitElementsAmount(elements, e);
      AmountsVirt("''", VisitElements(elements), e, CodeElements(elements), PlacesAll(elements, true, 0));
    case Keyed(access, o, key) => KeyedAmount(access, o, key, e);
    case Member(access, o, name, p) => MemberAmount(access, o, name, p, e);
    case Write(target, value) => WriteAmount(target, value, e);
    case Object(pairs) =>
      VisitPairsAmount(pairs, e, true);
      AmountsVirt("{", VisitPairs(pairs, true), e, CodePairs(pairs, true), PlacesOfPairs(pairs, true));
    case Call(access, f, chain, args) =>
      VisitArgsAmount(args, e, 0, true, ")");
      AmountsVirt("(", VisitArgs(args, 0, true, ")"), e, CodeArgs(args, true) + ")", PlacesAll(args, true, 0));
      assert "(" + (CodeArgs(args, true) + ")") == "(" + CodeArgs(args, true) + ")";
      CallAmount(access, f, chain, Virt("(", VisitArgs(args, 0, true, ")")), e, "(" + CodeArgs(args, true) + ")",
          PlacesAll(args, true, 0));
    case AnyCast(arg) => CastAmount(arg, e);
    case Array(start, elements) => ArrayAmount(start, elements, e);
  }

  lemma IdentifierAmount(name: Text, p: Place, bang: bool, e: Expr)
    ensures Amounts(Visit(Identifier(name, p, bang)), e, Code(Identifier(name, p, bang)), [Mark(name, p)])
  {
    hide Amounts;
    AmountsDone(e);
    AmountsVirt("!", Done, e, "", []);
    var end := if bang then Virt("!", Done) else Done;
    var text := if bang then "!" + "" else "";
    AmountsReal(name, p, end, e, text, []);
    AmountsVirt("this.", Real(name, p, end), e, name + text, [Mark(name, p)]);
    assert "this." + (name + text) == "this." + name + (if bang then "!" else "");
  }

  // ----- the translation, and the shift -----

  lemma TranslatedNothing(s: Statement)
    requires s.Parts == []
    ensures Translated(s, "", []) && SpansOf(s.Parts) == {}
  {
  }

  /** Copies in the translation of a sub-expression, shifted first. */
  method AddSub(s: Statement, x: Expr, shift: nat, ghost code: Text, ghost places: seq<Mark>)
    requires Translated(s, code, places)
    modifies s
    ensures Translated(s, code + Code(x), places + Moved(Places(x, true), shift))
    ensures SpansOf(s.Parts) >= old(SpansOf(s.Parts)) && fresh(SpansOf(s.Parts) - old(SpansOf(s.Parts)))
    decreases x, 2
  {
    hide Traced, Unshared, Render, Code, Places;
    ghost var spans := SpansOf(s.Parts);
    var inner := Translate(x);
    OffsetByNodeStart(inner, shift, Code(x), Places(x, true));
    assert unchanged(spans);
    AddCopy(s, inner, code, places, Code(x), Moved(Places(x, true), shift));
  }

  /** Carries out a visitor's pieces, one after the other. */
  method Append(ps: Pieces, s: Statement, ghost e: Expr, ghost code: Text, ghost places: seq<Mark>)
    requires Below(ps, e) && Translated(s, code, places)
    modifies s
    ensures Translated(s, code + CodeOf(ps), places + PlacesOf(ps))
    ensures SpansOf(s.Parts) >= old(SpansOf(s.Parts)) && fresh(SpansOf(s.Parts) - old(SpansOf(s.Parts)))
    decreases e, 0, ps, 0
  {
    hide Translated, Code, Places, Moved;
    match ps
    case Done =>
      assert code + "" == code && places + [] == places;
    case Virt(text, rest) =>
      AddVirtual(s, text, code, places);
      Append(rest, s, e, code + text, places);
      Associates(code, text, CodeOf(rest));
    case Real(text, place, rest) =>
      AddReal(s, text, place, code, places);
      Append(rest, s, e, code + text, places + [Mark(text, place)]);
      Associates(code, text, CodeOf(rest));
      Associates(places, [Mark(text, place)], PlacesOf(rest));
    case Sub(x, shift, rest) =>
      AddSub(s, x, shift, code, places);
      Append(rest, s, e, code + Code(x), places + Moved(Places(x, true), shift));
      Associates(code, Code(x), CodeOf(rest));
      Associates(places, Moved(Places(x, true), shift), PlacesOf(rest));
    case Nest(sub, rest) =>
      AddNested(s, sub, e, code, places);
      Append(rest, s, e, code + CodeOf(sub), places + PlacesOf(sub));
      Associates(code, CodeOf(sub), CodeOf(rest));
      Associates(places, PlacesOf(sub), PlacesOf(rest));
  }

  /** Copies in a statement put together on the side. */
  method AddNested(s: Statement, ps: Pieces, ghost e: Expr, ghost code: Text, ghost places: seq<Mark>)
    requires Below(ps, e) && Translated(s, code, places)
    modifies s
    ensures Translated(s, code + CodeOf(ps), places + PlacesOf(ps))
    ensures SpansOf(s.Parts) >= old(SpansOf(s.Parts)) && fresh(SpansOf(s.Parts) - old(SpansOf(s.Parts)))
    decreases e, 0, ps, 1
  {
    hide Traced, Unshared, Render, CodeOf, PlacesOf;
    var inner := new Statement();
    TranslatedNothing(inner);
    ghost var spans := SpansOf(s.Parts);
    Append(ps, inner, e, "", []);
    assert "" + CodeOf(ps) == CodeOf(ps) && [] + PlacesOf(ps) == PlacesOf(ps);
    assert unchanged(spans);
    AddCopy(s, inner, code, places, CodeOf(ps), PlacesOf(ps));
  }

  /** `newWalk`: the visitor for `e`, on a statement of its own. */
  method Translate(e: Expr) returns (s: Statement)
    ensures fresh(s) && fresh(SpansOf(s.Parts)) && Translated(s, Code(e), Places(e, true))
    decreases e, 1
  {
    hide Traced, Unshared, Render, CodeOf, PlacesOf, Code, Places, Visit;
    VisitAmount(e);
    s := new Statement();
    TranslatedNothing(s);
    Append(Visit(e), s, e, "", []);
    assert "" + Code(e) == Code(e) && [] + Places(e, true) == Places(e, true);
  }

  /** Spans that no two parts share move once. */
  method OffsetOnce(parts: seq<Part>, offset: int)
    requires Unshared(parts)
    modifies SpansOf(parts)
    ensures forall o <- SpansOf(parts) ::
              o.startOffset == old(o.startOffset) + offset && o.endOffset == old(o.endOffset) + offset
  {
    hide Uses, Unshared;
    forall o | o in SpansOf(parts)
      ensures Uses(parts, o) * offset == offset
    {
      UsedOnce(parts, o);
      UsesNone(parts, o);
      assert Uses(parts, o) == 1;
    }
    OffsetByOffset(parts, offset);
  }

  /** A statement whose parts share no span is moved as a whole, once. */
  method OffsetByNodeStart(s: Statement, offset: int, ghost code: Text, ghost places: seq<Mark>)
    requires Translated(s, code, places)
    modifies SpansOf(s.Parts)
    ensures Translated(s, code, Moved(places, offset)) && s.Parts == old(s.Parts)
  {
    hide Unshared, Render;
    var parts := s.Parts;
    ghost var reals := RealParts(parts);
    assert forall i :: 0 <= i < |reals| ==> reals[i].pug in SpansOf(parts) && MarkOf(reals[i]) == places[i];
    OffsetOnce(parts, offset);
    assert forall i :: 0 <= i < |reals| ==> MarkOf(reals[i]) == Shifted(places[i], offset);
    assert Traced(parts) == Moved(places, offset);
  }

  /** An attribute value: its expression is translated, and the result is then moved to
      where the value stands in the template. */
  method ValueExpression(e: Expr, base: int) returns (s: Statement)
    ensures fresh(s) && Translated(s, Code(e), Moved(Places(e, true), base))
  {
    hide Unshared, Render, Traced, Code, Places;
    s := Translate(e);
    OffsetByNodeStart(s, base, Code(e), Places(e, true));
  }

  // ----- when every span is exact -----

  /** No array away from the start of the expression has a real part in it. */
  predicate NoMovedArray(e: Expr) {
    match e
    case Token(_, _) => true
    case Identifier(_, _, _) => true
    case Unary(_, _, value) => NoMovedArray(value)
    case Binary(l, _, _, r) => NoMovedArray(l) && NoMovedArray(r)
    case Conditional(c, t, f) => NoMovedArray(c) && NoMovedArray(t) && NoMovedArray(f)
    case Group(inner) => NoMovedArray(inner)
    case Template(elements) => NoMovedArrays(elements)
    case Keyed(_, o, key) => NoMovedArray(o) && NoMovedArray(key)
    case Member(_, o, _, _) => NoMovedArray(o)
    case Write(target, value) => NoMovedArray(target) && NoMovedArray(value)
    case Object(pairs) => NoMovedArrayPairs(pairs)
    case Call(_, f, _, args) => NoMovedArray(f) && NoMovedArrays(args)
    case AnyCast(arg) => NoMovedArray(arg)
    case Array(start, elements) => NoMovedArrays(elements) && (start == 0 || PlacesAll(elements, false, 0) == [])
  }

  predicate NoMovedArrays(es: Exprs) {
    match es
    case Nil => true
    case Cons(e, rest) => NoMovedArray(e) && NoMovedArrays(rest)
  }

  predicate NoMovedArrayPairs(ps: Pairs) {
    match ps
    case NoPairs => true
    case Pair(_, _, value, rest) => NoMovedArray(value) && NoMovedArrayPairs(rest)
    case Lone(_, _, rest) => NoMovedArrayPairs(rest)
  }

  /** The same places, some of them moved forward. */
  predicate NotBefore(a: seq<Mark>, b: seq<Mark>) {
    |a| == |b| && forall i :: 0 <= i < |a| ==> a[i].place.start >= b[i].place.start
  }

  lemma Joined(a: seq<Mark>, b: seq<Mark>, c: seq<Mark>, d: seq<Mark>)
    requires NotBefore(a, b) && NotBefore(c, d)
    ensures NotBefore(a + c, b + d) && (a + c == b + d <==> a == b && c == d)
  {
    assert |a| == |b|;
    if a + c == b + d {
      assert a == (a + c)[..|a|] && b == (b + d)[..|a|];
      assert c == (a + c)[|a|..] && d == (b + d)[|a|..];
    }
  }

  lemma Unmoved(a: seq<Mark>)
    ensures NotBefore(a, a)
  {
  }

  lemma {:induction false} Compared(e: Expr)
    ensures NotBefore(Places(e, true), Places(e, false))
    ensures Places(e, true) == Places(e, false) <==> NoMovedArray(e)
  {
    hide NotBefore;
    match e
    case Token(text, p) => Unmoved([Mark(text, p)]);
    case Identifier(name, p, _) => Unmoved([Mark(name, p)]);
    case Unary(op, p, value) =>
      Compared(value);
      var m := [Mark(op, p)];
      Unmoved(m);
      Joined(m, m, Places(value, true), Places(value, false));
    case Binary(l, op, p, r) =>
      Compared(l);
      Compared(r);
      var m := [Mark(op, p)];
      Unmoved(m);
      Joined(Places(l, true), Places(l, false), m, m);
      Joined(Places(l, true) + m, Places(l, false) + m, Places(r, true), Places(r, false));
    case Conditional(c, t, f) =>
      Compared(c);
      Compared(t);
      Compared(f);
      Joined(Places(c, true), Places(c, false), Places(t, true), Places(t, false));
      Joined(Places(c, true) + Places(t, true), Places(c, false) + Places(t, false), Places(f, true), Places(f, false));
    case Group(inner) => Compared(inner);
    case Template(elements) => ComparedAll(elements, 0);
    case Keyed(_, o, key) =>
      Compared(o);
      Compared(key);
      Joined(Places(o, true), Places(o, false), Places(key, true), Places(key, false));
    case Member(_, o, name, p) =>
      Compared(o);
      Unmoved([Mark(name, p)]);
      Joined(Places(o, true), Places(o, false), [Mark(name, p)], [Mark(name, p)]);
    case Write(target, value) =>
      Compared(target);
      Compared(value);
      Joined(Places(target, true), Places(target, false), Places(value, true), Places(value, false));
    case Object(pairs) => ComparedPairs(pairs);
    case Call(access, f, chain, args) =>
      Compared(f);
      ComparedAll(args, 0);
      var mid := ChainMarks(access, chain);
      Unmoved(mid);
      Joined(Places(f, true), Places(f, false), mid, mid);
      Joined(Places(f, true) + mid, Places(f, false) + mid, PlacesAll(args, true, 0), PlacesAll(args, false, 0));
    case AnyCast(arg) => Compared(arg);
    case Array(start, elements) => ComparedAll(elements, start);
  }

  /** Elements moved by `start`, against elements left where they are. */
  lemma {:induction false} ComparedAll(es: Exprs, start: nat)
    ensures NotBefore(PlacesAll(es, true, start), PlacesAll(es, false, 0))
    ensures PlacesAll(es, true, start) == PlacesAll(es, false, 0) <==>
            NoMovedArrays(es) && (start == 0 || PlacesAll(es, false, 0) == [])
  {
    match es
    case Nil =>
    case Cons(e, rest) =>
      Compared(e);
      ComparedAll(rest, start);
      var a, b := Places(e, true), Places(e, false);
      assert Moved(b, 0) == b;
      MovedCompared(a, b, start);
      Joined(Moved(a, start), b, PlacesAll(rest, true, start), PlacesAll(rest, false, 0));
  }

  lemma MovedCompared(a: seq<Mark>, b: seq<Mark>, start: nat)
    requires NotBefore(a, b)
    ensures NotBefore(Moved(a, start), b) && (Moved(a, start) == b <==> a == b && (start == 0 || b == []))
  {
    if start == 0 {
      assert Moved(a, start) == a;
    } else if b != [] {
      assert Moved(a, start)[0].place.start > b[0].place.start;
    }
  }

  lemma {:induction false} ComparedPairs(ps: Pairs)
    ensures NotBefore(PlacesOfPairs(ps, true), PlacesOfPairs(ps, false))
    ensures PlacesOfPairs(ps, true) == PlacesOfPairs(ps, false) <==> NoMovedArrayPairs(ps)
  {
    match ps
    case NoPairs =>
    case Pair(key, p, value, rest) =>
      Compared(value);
      ComparedPairs(rest);
      var m := [Mark(Quoted(key), p)];
      Joined(m, m, Places(value, true), Places(value, false));
      Joined(m + Places(value, true), m + Places(value, false), PlacesOfPairs(rest, true),
          PlacesOfPairs(rest, false));
    case Lone(key, p, rest) =>
      ComparedPairs(rest);
      var m := [Mark(Quoted(key), p)];
      Joined(m, m, PlacesOfPairs(rest, true), PlacesOfPairs(rest, false));
  }

  /** Every real part of a translated expression is traced to its own node, moved once
      by the expression's base, if and only if no array stands away from the start of
      the expression with a real part in it. */
  lemma ShiftedOnceExactlyWhen(e: Expr, base: int)
    ensures Moved(Places(e, true), base) == Moved(Places(e, false), base) <==> NoMovedArray(e)
  {
    hide Places, NoMovedArray;
    Compared(e);
    var a, b := Places(e, true), Places(e, false);
    if Moved(a, base) == Moved(b, base) {
      forall i | 0 <= i < |a|
        ensures a[i] == b[i]
      {
        assert Moved(a, base)[i] == Moved(b, base)[i];
      }
      assert a == b;
    }
  }
}
