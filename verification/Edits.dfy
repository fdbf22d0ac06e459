/** Edits made in the document while every node's offsets are shifted, and the tree
    rewriting they carry out. */
module Edits {
  import opened Texts
  import opened Positions

  // ----- documents and the trees laid out in them -----

  datatype Span = Span(start: nat, end: nat)

  /** `el` and `op` number the staged elements, in the order they are visited.  `Paren`
      is a pair of parentheses around an expression; `Other` is any other node. */
  datatype Node =
    | Binary(el: nat, left: Node, op: nat, right: Node)
    | Paren(el: nat, inner: Node)
    | Other(el: nat, children: Nodes)

  datatype Nodes = Nil | Cons(head: Node, tail: Nodes)

  /** The text of a session and the offsets of its staged elements. */
  datatype Doc = Doc(text: Text, spans: seq<Span>)

  // ----- one edit -----

  /** Offsets are unsigned: below zero they wrap. */
  function Shift(x: nat, difference: int): nat {
    if x + difference < 0 then ToUint(x + difference) else x + difference
  }

  /** `element.edit`: replaces the bytes from `start` to `oldEnd` by as many as lie
      between `start` and `newEnd`. */
  function EditSpan(e: Span, start: nat, oldEnd: nat, newEnd: nat): Span {
    if e.start < start && e.end < start then e
    else
      var difference := newEnd - oldEnd;
      Span(if e.start > start then Shift(e.start, difference) else e.start, Shift(e.end, difference))
  }

  // ----- layout -----

  function Start(d: Doc, i: nat): nat {
    if i < |d.spans| then d.spans[i].start else 0
  }

  function End(d: Doc, i: nat): nat {
    if i < |d.spans| then d.spans[i].end else 0
  }

  predicate InText(d: Doc, i: nat) {
    i < |d.spans| && Start(d, i) <= End(d, i) <= |d.text|
  }

  /** `commonNode.editText` for the node of element `i`. */
  function EditText(d: Doc, i: nat, newText: Text): Doc
    requires InText(d, i)
  {
    var e := d.spans[i];
    Doc(d.text[..e.start] + newText + d.text[e.end..],
        seq(|d.spans|, k requires 0 <= k < |d.spans| => EditSpan(d.spans[k], e.start, e.end, e.start + |newText|)))
  }

  /** The nodes of a tree lie where a parser puts them: children inside their parent
      and one after the other.  With `gaps` there is a gap before every operator. */
  predicate Fits(d: Doc, n: Node, gaps: bool) {
    InText(d, n.el) &&
    match n
    case Binary(el, left, op, right) =>
      && Fits(d, left, gaps) && Fits(d, right, gaps) && InText(d, op)
      && Start(d, el) == Start(d, left.el) && End(d, left.el) <= Start(d, op)
      && (gaps ==> End(d, left.el) < Start(d, op))
      && Start(d, op) < End(d, op) <= Start(d, right.el) && End(d, right.el) == End(d, el)
    case Paren(el, inner) =>
      Fits(d, inner, gaps) && Start(d, el) <= Start(d, inner.el) && End(d, inner.el) <= End(d, el)
    case Other(el, children) => FitsAll(d, children, gaps, Start(d, el), End(d, el))
  }

  predicate FitsAll(d: Doc, ns: Nodes, gaps: bool, lo: nat, hi: nat) {
    match ns
    case Nil => lo <= hi
    case Cons(n, rest) => Fits(d, n, gaps) && lo <= Start(d, n.el) && FitsAll(d, rest, gaps, End(d, n.el), hi)
  }

  // ----- what a reader sees -----

  /** An expression as written: infix expressions with the blanks around their
      operator, parentheses, and everything else verbatim. */
  datatype Source =
    | Infix(left: Source, before: Text, op: Text, after: Text, right: Source)
    | Parens(open: Text, inner: Source, close: Text)
    | Verbatim(text: Text)

  function Unparse(s: Source): Text {
    match s
    case Infix(l, before, op, after, r) => Unparse(l) + before + op + after + Unparse(r)
    case Parens(open, inner, close) => open + Unparse(inner) + close
    case Verbatim(text) => text
  }

  function Slice(text: Text, from: nat, to: nat): Text {
    if from <= to <= |text| then text[from..to] else ""
  }

  function Read(d: Doc, n: Node): Source {
    match n
    case Binary(_, left, op, right) =>
      Infix(Read(d, left), Slice(d.text, End(d, left.el), Start(d, op)), Slice(d.text, Start(d, op), End(d, op)),
            Slice(d.text, End(d, op), Start(d, right.el)), Read(d, right))
    case Paren(el, inner) =>
      Parens(Slice(d.text, Start(d, el), Start(d, inner.el)), Read(d, inner),
          Slice(d.text, End(d, inner.el), End(d, el)))
    case Other(el, _) => Verbatim(Slice(d.text, Start(d, el), End(d, el)))
  }

  lemma Join(text: Text, a: nat, b: nat, c: nat)
    requires a <= b <= c <= |text|
    ensures Slice(text, a, b) + Slice(text, b, c) == Slice(text, a, c)
  {
  }

  /** Reading loses nothing. */
  lemma {:induction false} UnparseRead(d: Doc, n: Node, gaps: bool)
    requires Fits(d, n, gaps)
    ensures Unparse(Read(d, n)) == Slice(d.text, Start(d, n.el), End(d, n.el))
  {
    hide Slice, Start, End;
    match n
    case Binary(el, left, op, right) =>
      UnparseRead(d, left, gaps);
      UnparseRead(d, right, gaps);
      Join(d.text, Start(d, el), End(d, left.el), Start(d, op));
      Join(d.text, Start(d, el), Start(d, op), End(d, op));
      Join(d.text, Start(d, el), End(d, op), Start(d, right.el));
      Join(d.text, Start(d, el), Start(d, right.el), End(d, el));
    case Paren(el, inner) =>
      UnparseRead(d, inner, gaps);
      Join(d.text, Start(d, el), Start(d, inner.el), End(d, inner.el));
      Join(d.text, Start(d, el), End(d, inner.el), End(d, el));
    case Other(_, _) =>
  }

  // ----- inverting -----

  /** The code's table.  The opposite of `<=` ought to be `>`. */
  function Flip(op: Text): Text {
    if op == "&&" then "||"
    else if op == "===" then "!=="
    else if op == "==" then "!="
    else if op == ">" then "<="
    else if op == ">=" then "<"
    else if op == "<" then ">="
    else if op == "<=" then ">="
    else if op == "!==" then "==="
    else if op == "!=" then "=="
    else if op == "||" then "&&"
    else op
  }

  /** The tree rewriting behind `invert`: operators are flipped, through single
      parentheses too, and nothing else changes. */
  function Inverted(s: Source): Source
    requires s.Infix?
    decreases s, 0
  {
    Infix(InvertedOperand(s.left), s.before, Flip(s.op), s.after, InvertedOperand(s.right))
  }

  function InvertedOperand(s: Source): Source
    decreases s, 1
  {
    if s.Infix? then Inverted(s)
    else if s.Parens? && s.inner.Infix? then s.(inner := Inverted(s.inner))
    else s
  }

  /** `IsNode[*binaryExpression]`: parentheses hand out the node inside them. */
  function AsBinary(n: Node): (r: Node)
    ensures r == n || r < n
  {
    if n.Paren? && n.inner.Binary? then n.inner else n
  }

  predicate Known(op: Text) {
    Flip(op) != op
  }

  /** `binaryExpressionOperator.invert`, on an operator inside the text. */
  function FlipOperator(d: Doc, op: nat): Doc {
    var text := Slice(d.text, Start(d, op), End(d, op));
    if InText(d, op) && Known(text) then EditText(d, op, Flip(text)) else d
  }

  /** `binaryExpression.invert`. */
  function InvertDoc(d: Doc, n: Node): Doc
    requires n.Binary?
    decreases n, 0
  {
    InvertOperandDoc(FlipOperator(InvertOperandDoc(d, n.left), n.op), n.right)
  }

  function InvertOperandDoc(d: Doc, n: Node): Doc
    decreases n, 1
  {
    if AsBinary(n).Binary? then InvertDoc(d, AsBinary(n)) else d
  }

  // ----- what an edit leaves alone -----

  predicate TextReplaced(text: Text, now: Text, s: nat, e: nat, t: Text) {
    s <= e <= |text| && now == text[..s] + t + text[e..]
  }

  /** Spans before the range stay, spans behind it move, spans around it stretch. */
  predicate Moved(x: Span, y: Span, s: nat, e: nat, difference: int, touch: bool) {
    && (x.end < s || (touch && x.end == s) ==> y == x)
    && (x.start >= e ==> y.start == x.start + difference && y.end == x.end + difference)
    && (x.start <= s && x.end >= e ==> y.start == x.start && y.end == x.end + difference)
  }

  /** The text between `s` and `e` has become `t`, and every element outside knows. */
  ghost predicate Replaced(d: Doc, now: Doc, s: nat, e: nat, t: Text, touch: bool) {
    && TextReplaced(d.text, now.text, s, e, t) && |now.spans| == |d.spans|
    && forall k {:trigger InText(d, k)} :: 0 <= k < |d.spans| && InText(d, k) ==>
          Moved(d.spans[k], now.spans[k], s, e, |t| - (e - s), touch)
  }

  lemma ReplacedNothing(d: Doc, s: nat, e: nat, touch: bool)
    requires s <= e <= |d.text|
    ensures Replaced(d, d, s, e, Slice(d.text, s, e), touch)
  {
    assert d.text == d.text[..s] + d.text[s..e] + d.text[e..];
  }

  lemma MovedInText(d: Doc, now: Doc, s: nat, e: nat, t: Text, k: nat, touch: bool)
    requires Replaced(d, now, s, e, t, touch) && InText(d, k)
    requires End(d, k) < s || (touch && End(d, k) == s) || Start(d, k) >= e || (Start(d, k) <= s && End(d, k) >= e)
    ensures InText(now, k)
  {
  }

  lemma Widen(d: Doc, now: Doc, s1: nat, e1: nat, t: Text, s: nat, e: nat, touch: bool)
    requires Replaced(d, now, s1, e1, t, touch) && s <= s1 && e1 <= e <= |d.text|
    ensures Replaced(d, now, s, e, Slice(d.text, s, s1) + t + Slice(d.text, e1, e), touch)
  {
    assert d.text[..s1] == d.text[..s] + d.text[s..s1];
    assert d.text[e1..] == d.text[e1..e] + d.text[e..];
  }

  lemma Then(d: Doc, d1: Doc, d2: Doc, s: nat, e: nat, t1: Text, t2: Text, touch: bool)
    requires s < e && Replaced(d, d1, s, e, t1, touch) && Replaced(d1, d2, s, s + |t1|, t2, touch)
    ensures Replaced(d, d2, s, e, t2, touch)
  {
    hide InText;
    assert d1.text[..s] == d.text[..s];
    assert d1.text[s + |t1|..] == d.text[e..];
    forall k | 0 <= k < |d.spans| && InText(d, k)
      ensures Moved(d.spans[k], d2.spans[k], s, e, |t2| - (e - s), touch)
    {
      var x := d.spans[k];
      if x.end < s || (touch && x.end == s) || x.start >= e || (x.start <= s && x.end >= e) {
        MovedInText(d, d1, s, e, t1, k, touch);
      }
    }
  }

  // ----- trees beside an edit -----

  lemma SliceBefore(text: Text, now: Text, s: nat, e: nat, t: Text, from: nat, to: nat)
    requires TextReplaced(text, now, s, e, t) && from <= to <= s
    ensures Slice(now, from, to) == Slice(text, from, to)
  {
  }

  lemma SliceBehind(text: Text, now: Text, s: nat, e: nat, t: Text, from: nat, to: nat)
    requires TextReplaced(text, now, s, e, t) && e <= from <= to <= |text|
    ensures var difference := |t| - (e - s);
            from + difference >= 0 && Slice(now, from + difference, to + difference) == Slice(text, from, to)
  {
    var difference := |t| - (e - s);
    assert now[from + difference..to + difference] == text[from..to];
  }

  lemma MovedBehind(d: Doc, now: Doc, s: nat, e: nat, t: Text, k: nat, touch: bool)
    requires Replaced(d, now, s, e, t, touch) && InText(d, k) && Start(d, k) >= e
    ensures InText(now, k) && Start(now, k) == Start(d, k) + |t| - (e - s) && End(now, k) == End(d, k) + |t| - (e - s)
  {
  }

  lemma ReadBehind(d: Doc, now: Doc, s: nat, e: nat, t: Text, from: nat, to: nat, from': nat, to': nat, touch: bool)
    requires Replaced(d, now, s, e, t, touch) && e <= from <= to <= |d.text|
    requires from' == from + |t| - (e - s) && to' == to + |t| - (e - s)
    ensures Slice(now.text, from', to') == Slice(d.text, from, to)
  {
    SliceBehind(d.text, now.text, s, e, t, from, to);
  }

  /** A tree before the edited range. */
  lemma {:induction false} TreeBefore(d: Doc, now: Doc, s: nat, e: nat, t: Text, n: Node)
    requires Replaced(d, now, s, e, t, true) && Fits(d, n, true) && End(d, n.el) <= s
    ensures Fits(now, n, true) && Read(now, n) == Read(d, n) && now.spans[n.el] == d.spans[n.el]
    decreases n
  {
    hide TextReplaced, Slice;
    MovedInText(d, now, s, e, t, n.el, true);
    match n
    case Binary(el, left, op, right) =>
      TreeOrder(d, n, true);
      TreeBefore(d, now, s, e, t, left);
      TreeBefore(d, now, s, e, t, right);
      MovedInText(d, now, s, e, t, op, true);
      SliceBefore(d.text, now.text, s, e, t, End(d, left.el), Start(d, op));
      SliceBefore(d.text, now.text, s, e, t, Start(d, op), End(d, op));
      SliceBefore(d.text, now.text, s, e, t, End(d, op), Start(d, right.el));
    case Paren(el, inner) =>
      TreeBefore(d, now, s, e, t, inner);
      SliceBefore(d.text, now.text, s, e, t, Start(d, el), Start(d, inner.el));
      SliceBefore(d.text, now.text, s, e, t, End(d, inner.el), End(d, el));
    case Other(el, children) =>
      TreesBefore(d, now, s, e, t, children, Start(d, el), End(d, el));
      SliceBefore(d.text, now.text, s, e, t, Start(d, el), End(d, el));
  }

  lemma {:induction false} TreesBefore(d: Doc, now: Doc, s: nat, e: nat, t: Text, ns: Nodes, lo: nat, hi: nat)
    requires Replaced(d, now, s, e, t, true) && FitsAll(d, ns, true, lo, hi) && hi <= s
    ensures FitsAll(now, ns, true, lo, hi)
    decreases ns
  {
    match ns
    case Nil =>
    case Cons(n, rest) =>
      LastEnd(d, rest, End(d, n.el), hi, true);
      TreeBefore(d, now, s, e, t, n);
      TreesBefore(d, now, s, e, t, rest, End(d, n.el), hi);
  }

  lemma {:induction false} LastEnd(d: Doc, ns: Nodes, lo: nat, hi: nat, gaps: bool)
    requires FitsAll(d, ns, gaps, lo, hi)
    ensures lo <= hi
  {
    if ns.Cons? {
      assert InText(d, ns.head.el);
      LastEnd(d, ns.tail, End(d, ns.head.el), hi, gaps);
    }
  }

  lemma TreeOrder(d: Doc, n: Node, gaps: bool)
    requires Fits(d, n, gaps) && n.Binary?
    ensures InText(d, n.left.el) && InText(d, n.right.el) && InText(d, n.op) && InText(d, n.el)
  {
  }

  /** A tree behind the edited range moves as a whole. */
  lemma {:induction false} TreeBehind(d: Doc, now: Doc, s: nat, e: nat, t: Text, n: Node, touch: bool, gaps: bool)
    requires Replaced(d, now, s, e, t, touch) && Fits(d, n, gaps) && Start(d, n.el) >= e
    ensures Fits(now, n, gaps) && Read(now, n) == Read(d, n)
    ensures Start(now, n.el) == Start(d, n.el) + |t| - (e - s) && End(now, n.el) == End(d, n.el) + |t| - (e - s)
    decreases n
  {
    hide Replaced, Slice, Start, End;
    MovedBehind(d, now, s, e, t, n.el, touch);
    match n
    case Binary(el, left, op, right) =>
      TreeOrder(d, n, gaps);
      TreeBehind(d, now, s, e, t, left, touch, gaps);
      TreeBehind(d, now, s, e, t, right, touch, gaps);
      MovedBehind(d, now, s, e, t, op, touch);
      ReadBehind(d, now, s, e, t, End(d, left.el), Start(d, op), End(now, left.el), Start(now, op), touch);
      ReadBehind(d, now, s, e, t, Start(d, op), End(d, op), Start(now, op), End(now, op), touch);
      ReadBehind(d, now, s, e, t, End(d, op), Start(d, right.el), End(now, op), Start(now, right.el), touch);
    case Paren(el, inner) =>
      TreeBehind(d, now, s, e, t, inner, touch, gaps);
      ReadBehind(d, now, s, e, t, Start(d, el), Start(d, inner.el), Start(now, el), Start(now, inner.el), touch);
      ReadBehind(d, now, s, e, t, End(d, inner.el), End(d, el), End(now, inner.el), End(now, el), touch);
    case Other(el, children) =>
      TreesBehind(d, now, s, e, t, children, Start(d, el), End(d, el), touch, gaps);
      ReadBehind(d, now, s, e, t, Start(d, el), End(d, el), Start(now, el), End(now, el), touch);
  }

  lemma {:induction false} TreesBehind(d: Doc, now: Doc, s: nat, e: nat, t: Text, ns: Nodes, lo: nat, hi: nat,
      touch: bool, gaps: bool)
    requires Replaced(d, now, s, e, t, touch) && FitsAll(d, ns, gaps, lo, hi) && e <= lo
    ensures lo + |t| - (e - s) >= 0 && hi + |t| - (e - s) >= 0
    ensures FitsAll(now, ns, gaps, lo + |t| - (e - s), hi + |t| - (e - s))
    decreases ns
  {
    LastEnd(d, ns, lo, hi, gaps);
    match ns
    case Nil =>
    case Cons(n, rest) =>
      assert InText(d, n.el);
      TreeBehind(d, now, s, e, t, n, touch, gaps);
      TreesBehind(d, now, s, e, t, rest, End(d, n.el), hi, touch, gaps);
  }

  // ----- refinement -----

  /** `n` reads as `source` where it was, and everything outside knows. */
  ghost predicate Rewritten(d: Doc, now: Doc, n: Node, source: Source) {
    && Fits(d, n, true) && Fits(now, n, true) && Read(now, n) == source
    && Replaced(d, now, Start(d, n.el), End(d, n.el), Unparse(source), true)
  }

  lemma FlipReplaces(d: Doc, op: nat)
    requires InText(d, op) && 0 < Start(d, op) < End(d, op)
    ensures var a, b := Start(d, op), End(d, op);
            var old_ := Slice(d.text, a, b);
            var now := FlipOperator(d, op);
            && Replaced(d, now, a - 1, b, [d.text[a - 1]] + Flip(old_), true)
                && TextReplaced(d.text, now.text, a, b, Flip(old_))
            && Start(now, op) == a && End(now, op) == a + |Flip(old_)| && |Flip(old_)| > 0
  {
    var a, b := Start(d, op), End(d, op);
    var old_ := Slice(d.text, a, b);
    assert d.text[..a] == d.text[..a - 1] + [d.text[a - 1]];
    if !Known(old_) {
      ReplacedNothing(d, a - 1, b, true);
      ReplacedNothing(d, a, b, true);
      assert Slice(d.text, a - 1, b) == [d.text[a - 1]] + old_;
    }
  }

  /** Where the parts of an infix expression lie. */
  lemma Parts(d: Doc, n: Node, gaps: bool)
    requires Fits(d, n, gaps) && n.Binary?
    ensures InText(d, n.el) && InText(d, n.left.el) && InText(d, n.right.el) && InText(d, n.op)
    ensures Fits(d, n.left, gaps) && Fits(d, n.right, gaps)
    ensures Start(d, n.el) == Start(d, n.left.el) <= End(d, n.left.el) <= Start(d, n.op) < End(d, n.op)
    ensures gaps ==> End(d, n.left.el) < Start(d, n.op)
    ensures End(d, n.op) <= Start(d, n.right.el) <= End(d, n.right.el) == End(d, n.el) <= |d.text|
  {
  }

  /** An edit inside a node that still fits rewrites that node to what it reads as. */
  lemma Rewrites(d: Doc, now: Doc, n: Node, s: nat, e: nat, t: Text)
    requires Fits(d, n, true) && Fits(now, n, true) && Replaced(d, now, s, e, t, true) && Start(d, n.el) <= s
             && e <= End(d, n.el)
    ensures Rewritten(d, now, n, Read(now, n))
    ensures Start(now, n.el) == Start(d, n.el) && End(now, n.el) == End(d, n.el) + |t| - (e - s)
  {
    hide Fits, Read, Unparse;
    assert InText(d, n.el) by { InTree(d, n, true); }
    UnparseRead(now, n, true);
    Widen(d, now, s, e, t, Start(d, n.el), End(d, n.el), true);
    Cut(d.text, now.text, Start(d, n.el), End(d, n.el),
        Slice(d.text, Start(d, n.el), s) + t + Slice(d.text, e, End(d, n.el)));
  }

  lemma InTree(d: Doc, n: Node, gaps: bool)
    requires Fits(d, n, gaps)
    ensures InText(d, n.el)
  {
  }

  lemma Cut(text: Text, now: Text, s: nat, e: nat, t: Text)
    requires TextReplaced(text, now, s, e, t)
    ensures s + |t| <= |now| && Slice(now, s, s + |t|) == t
  {
  }

  /** The left operand of an infix expression has been rewritten. */
  lemma LeftRewritten(d: Doc, now: Doc, n: Node)
    requires n.Binary? && Fits(d, n, true) && Rewritten(d, now, n.left, Read(now, n.left))
    ensures var r := Read(d, n);
            Rewritten(d, now, n, Infix(Read(now, n.left), r.before, r.op, r.after, r.right))
  {
    hide Replaced, Slice;
    var s, e := Start(d, n.left.el), End(d, n.left.el);
    var t := Unparse(Read(now, n.left));
    Parts(d, n, true);
    Around(d, now, s, e, t, n.el, true);
    Around(d, now, s, e, t, n.left.el, true);
    TreeBehind(d, now, s, e, t, n.right, true, true);
    MovedBehind(d, now, s, e, t, n.op, true);
    ReadBehind(d, now, s, e, t, e, Start(d, n.op), End(now, n.left.el), Start(now, n.op), true);
    ReadBehind(d, now, s, e, t, Start(d, n.op), End(d, n.op), Start(now, n.op), End(now, n.op), true);
    ReadBehind(d, now, s, e, t, End(d, n.op), Start(d, n.right.el), End(now, n.op), Start(now, n.right.el), true);
    Rewrites(d, now, n, s, e, t);
  }

  lemma Around(d: Doc, now: Doc, s: nat, e: nat, t: Text, k: nat, touch: bool)
    requires Replaced(d, now, s, e, t, touch) && InText(d, k) && Start(d, k) <= s && e <= End(d, k)
    ensures InText(now, k) && Start(now, k) == Start(d, k) && End(now, k) == End(d, k) + |t| - (e - s)
  {
  }

  /** The right operand has been rewritten. */
  lemma RightRewritten(d: Doc, now: Doc, n: Node)
    requires n.Binary? && Fits(d, n, true) && Rewritten(d, now, n.right, Read(now, n.right))
    ensures var r := Read(d, n);
            Rewritten(d, now, n, Infix(r.left, r.before, r.op, r.after, Read(now, n.right)))
  {
    hide Replaced, Slice;
    var s, e := Start(d, n.right.el), End(d, n.right.el);
    var t := Unparse(Read(now, n.right));
    Parts(d, n, true);
    Around(d, now, s, e, t, n.el, true);
    Around(d, now, s, e, t, n.right.el, true);
    TreeBefore(d, now, s, e, t, n.left);
    StaysBefore(d, now, s, e, t, n.op);
    assert TextReplaced(d.text, now.text, s, e, t) by { ReplacedText(d, now, s, e, t, true); }
    SliceBefore(d.text, now.text, s, e, t, End(d, n.left.el), Start(d, n.op));
    SliceBefore(d.text, now.text, s, e, t, Start(d, n.op), End(d, n.op));
    SliceBefore(d.text, now.text, s, e, t, End(d, n.op), s);
    Rewrites(d, now, n, s, e, t);
  }

  lemma ReplacedText(d: Doc, now: Doc, s: nat, e: nat, t: Text, touch: bool)
    requires Replaced(d, now, s, e, t, touch)
    ensures TextReplaced(d.text, now.text, s, e, t)
  {
  }

  lemma StaysBefore(d: Doc, now: Doc, s: nat, e: nat, t: Text, k: nat)
    requires Replaced(d, now, s, e, t, true) && InText(d, k) && End(d, k) <= s
    ensures InText(now, k) && Start(now, k) == Start(d, k) && End(now, k) == End(d, k)
  {
  }

  /** An operator has become `t`; the gap before it keeps the left operand out. */
  lemma OperatorFits(d: Doc, now: Doc, n: Node, a: nat, b: nat, t: Text, wide: Text)
    requires n.Binary? && Fits(d, n, true) && a == Start(d, n.op) && b == End(d, n.op) && 0 < a
    requires Replaced(d, now, a - 1, b, wide, true) && |wide| == |t| + 1 && TextReplaced(d.text, now.text, a, b, t)
    requires t != "" && Start(now, n.op) == a && End(now, n.op) == a + |t|
    ensures var r := Read(d, n);
            Fits(now, n, true) && Read(now, n) == Infix(r.left, r.before, t, r.after, r.right)
  {
    hide Fits, Read, Replaced, TextReplaced, Slice, Start, End, InText;
    Parts(d, n, true);
    PartsRead(d, n);
    PartsRead(now, n);
    Around(d, now, a - 1, b, wide, n.el, true);
    TreeBefore(d, now, a - 1, b, wide, n.left);
    assert Start(now, n.left.el) == Start(d, n.left.el) && End(now, n.left.el) == End(d, n.left.el) by {
      StaysBefore(d, now, a - 1, b, wide, n.left.el);
    }
    TreeBehind(d, now, a - 1, b, wide, n.right, true, true);
    SliceBefore(d.text, now.text, a, b, t, End(d, n.left.el), a);
    Cut(d.text, now.text, a, b, t);
    ReadBehind(d, now, a - 1, b, wide, b, Start(d, n.right.el), End(now, n.op), Start(now, n.right.el), true);
    PartsFit(now, n, true);
  }

  lemma PartsRead(d: Doc, n: Node)
    requires n.Binary?
    ensures Read(d, n) == Infix(Read(d, n.left), Slice(d.text, End(d, n.left.el), Start(d, n.op)),
            Slice(d.text, Start(d, n.op), End(d, n.op)),
                                Slice(d.text, End(d, n.op), Start(d, n.right.el)), Read(d, n.right))
  {
  }

  lemma PartsFit(d: Doc, n: Node, gaps: bool)
    requires n.Binary? && Fits(d, n.left, gaps) && Fits(d, n.right, gaps)
    requires Start(d, n.el) == Start(d, n.left.el) && End(d, n.left.el) <= Start(d, n.op) < End(d, n.op)
    requires gaps ==> End(d, n.left.el) < Start(d, n.op)
    requires End(d, n.op) <= Start(d, n.right.el) && End(d, n.right.el) == End(d, n.el)
    ensures Fits(d, n, gaps)
  {
    assert InText(d, n.left.el) && InText(d, n.right.el);
  }

  /** The operator has been flipped. */
  lemma OperatorFlipped(d: Doc, n: Node)
    requires n.Binary? && Fits(d, n, true)
    ensures var r := Read(d, n);
            Rewritten(d, FlipOperator(d, n.op), n, Infix(r.left, r.before, Flip(r.op), r.after, r.right))
  {
    hide Replaced, TextReplaced, Slice, FlipOperator, Flip, Rewritten;
    Parts(d, n, true);
    var a, b := Start(d, n.op), End(d, n.op);
    FlipReplaces(d, n.op);
    var t := Flip(Slice(d.text, a, b));
    OperatorFits(d, FlipOperator(d, n.op), n, a, b, t, [d.text[a - 1]] + t);
    Rewrites(d, FlipOperator(d, n.op), n, a - 1, b, [d.text[a - 1]] + t);
  }

  /** The expression inside a pair of parentheses has been rewritten. */
  lemma InnerRewritten(d: Doc, now: Doc, n: Node)
    requires n.Paren? && Fits(d, n, true) && Rewritten(d, now, n.inner, Read(now, n.inner))
    ensures var r := Read(d, n);
            r.Parens? && Rewritten(d, now, n, Parens(r.open, Read(now, n.inner), r.close))
  {
    hide Replaced, Slice;
    var s, e := Start(d, n.inner.el), End(d, n.inner.el);
    var t := Unparse(Read(now, n.inner));
    Around(d, now, s, e, t, n.el, true);
    Around(d, now, s, e, t, n.inner.el, true);
    ReplacedText(d, now, s, e, t, true);
    SliceBefore(d.text, now.text, s, e, t, Start(d, n.el), s);
    ReadBehind(d, now, s, e, t, e, End(d, n.el), End(now, n.inner.el), End(now, n.el), true);
    Rewrites(d, now, n, s, e, t);
  }

  lemma RewrittenThen(d: Doc, d1: Doc, d2: Doc, n: Node, first: Source, second: Source)
    requires Rewritten(d, d1, n, first) && Rewritten(d1, d2, n, second) && Start(d, n.el) < End(d, n.el)
    ensures Rewritten(d, d2, n, second)
  {
    hide Fits, Read, Unparse, Replaced;
    var s, e := Start(d, n.el), End(d, n.el);
    InTree(d, n, true);
    Around(d, d1, s, e, Unparse(first), n.el, true);
    Then(d, d1, d2, s, e, Unparse(first), Unparse(second), true);
  }

  lemma Unchanged(d: Doc, n: Node)
    requires Fits(d, n, true)
    ensures Rewritten(d, d, n, Read(d, n))
  {
    hide Fits, Read, Unparse;
    InTree(d, n, true);
    UnparseRead(d, n, true);
    ReplacedNothing(d, Start(d, n.el), End(d, n.el), true);
  }

  lemma {:induction false} InvertOperandRefines(d: Doc, n: Node)
    requires Fits(d, n, true)
    ensures Rewritten(d, InvertOperandDoc(d, n), n, InvertedOperand(Read(d, n)))
    decreases n, 1
  {
    hide Rewritten, InvertDoc;
    if n.Binary? {
      InvertRefines(d, n);
    } else if AsBinary(n).Binary? {
      InvertRefines(d, n.inner);
      RewrittenReads(d, InvertDoc(d, n.inner), n.inner, Inverted(Read(d, n.inner)));
      InnerRewritten(d, InvertDoc(d, n.inner), n);
    } else {
      Unchanged(d, n);
    }
  }

  lemma RewrittenReads(d: Doc, now: Doc, n: Node, source: Source)
    requires Rewritten(d, now, n, source)
    ensures Fits(now, n, true) && Read(now, n) == source
  {
  }

  /** The series of edits made by `invert`, every one of which moves every element,
      carries out the rewriting of the tree: the document is the old one with the
      node's span replaced by the rewritten expression, the node's own elements are
      laid out in it, and every other element has moved or stretched with the text. */
  lemma {:induction false} InvertRefines(d: Doc, n: Node)
    requires n.Binary? && Fits(d, n, true)
    ensures Rewritten(d, InvertDoc(d, n), n, Inverted(Read(d, n)))
    decreases n, 0
  {
    hide Rewritten, FlipOperator, Flip, InvertOperandDoc, InvertedOperand;
    var d1 := InvertOperandDoc(d, n.left);
    var d2 := FlipOperator(d1, n.op);
    var d3 := InvertOperandDoc(d2, n.right);
    Parts(d, n, true);
    InvertOperandRefines(d, n.left);
    RewrittenReads(d, d1, n.left, InvertedOperand(Read(d, n.left)));
    LeftRewritten(d, d1, n);
    RewrittenReads(d, d1, n, Read(d, n).(left := Read(d1, n.left)));
    OperatorFlipped(d1, n);
    RewrittenReads(d1, d2, n, Read(d1, n).(op := Flip(Read(d1, n).op)));
    Parts(d2, n, true);
    InvertOperandRefines(d2, n.right);
    RewrittenReads(d2, d3, n.right, InvertedOperand(Read(d2, n.right)));
    RightRewritten(d2, d3, n);
    RewrittenThen(d, d1, d2, n, Read(d1, n), Read(d2, n));
    RewrittenThen(d, d2, d3, n, Read(d2, n), Inverted(Read(d, n)));
  }

  // ----- without gaps -----

  lemma FlipReplacesLoosely(d: Doc, op: nat)
    requires InText(d, op) && Start(d, op) < End(d, op)
    ensures Replaced(d, FlipOperator(d, op), Start(d, op), End(d, op), Flip(Slice(d.text, Start(d, op), End(d, op))),
            false)
  {
    var old_ := Slice(d.text, Start(d, op), End(d, op));
    if !Known(old_) {
      ReplacedNothing(d, Start(d, op), End(d, op), false);
    }
  }

  /** Three pieces of a text replaced one after the other. */
  lemma ThreePieces(text: Text, text1: Text, text2: Text, s: nat, l: nat, a: nat, b: nat, r: nat, a1: nat, r2: nat,
      t1: Text, t2: Text)
    requires s <= l <= a <= b <= r <= |text| && TextReplaced(text, text1, s, l, t1)
    requires a1 == a + |t1| - (l - s) && TextReplaced(text1, text2, a1, a1 + (b - a), t2)
    requires r2 == r + |t1| - (l - s) + |t2| - (b - a)
    ensures Slice(text2, s, r2) == t1 + Slice(text, l, a) + t2 + Slice(text, b, r)
  {
    hide Slice, TextReplaced;
    var e1 := s + |t1|;
    Cut(text, text1, s, l, t1);
    SliceBehind(text, text1, s, l, t1, l, a);
    SliceBehind(text, text1, s, l, t1, b, r);
    var b1 := a1 + (b - a);
    SliceBefore(text1, text2, a1, b1, t2, s, e1);
    SliceBefore(text1, text2, a1, b1, t2, e1, a1);
    Cut(text1, text2, a1, b1, t2);
    Length(text, text1, s, l, t1);
    Length(text1, text2, a1, b1, t2);
    SliceBehind(text1, text2, a1, b1, t2, b1, b1 + (r - b));
    Join(text2, s, e1, a1);
    Join(text2, s, a1, a1 + |t2|);
    Join(text2, s, a1 + |t2|, r2);
  }

  lemma Length(text: Text, now: Text, s: nat, e: nat, t: Text)
    requires TextReplaced(text, now, s, e, t)
    ensures |now| == |text| + |t| - (e - s)
  {
  }

  /** Three edits inside the range from `s` to `e`, one after the other. */
  lemma ThreeSteps(d: Doc, d1: Doc, d2: Doc, d3: Doc, s: nat, l: nat, a: nat, b: nat, r: nat, e: nat,
                   a1: nat, r2: nat, e2: nat, t1: Text, t2: Text, t3: Text)
    requires s <= l <= a < b <= r <= e <= |d.text| && Replaced(d, d1, s, l, t1, false)
    requires a1 == a + |t1| - (l - s) && Replaced(d1, d2, a1, a1 + (b - a), t2, false)
    requires r2 == r + |t1| - (l - s) + |t2| - (b - a) && e2 == r2 + (e - r) && Replaced(d2, d3, r2, e2, t3, false)
    ensures Replaced(d, d3, s, e, t1 + Slice(d.text, l, a) + t2 + Slice(d.text, b, r) + t3, false)
  {
    hide Slice, Replaced, TextReplaced;
    ReplacedText(d, d1, s, l, t1, false);
    ReplacedText(d1, d2, a1, a1 + (b - a), t2, false);
    Length(d.text, d1.text, s, l, t1);
    Length(d1.text, d2.text, a1, a1 + (b - a), t2);
    ThreePieces(d.text, d1.text, d2.text, s, l, a, b, r, a1, r2, t1, t2);
    var e1 := e + |t1| - (l - s);
    Widen(d, d1, s, l, t1, s, e, false);
    Widen(d1, d2, a1, a1 + (b - a), t2, s, e1, false);
    Widen(d2, d3, r2, e2, t3, s, e2, false);
    SliceLength(d.text, s, s);
    SliceLength(d.text, l, e);
    SliceLength(d1.text, s, a1);
    SliceLength(d1.text, a1 + (b - a), e1);
    SliceLength(d2.text, e2, e2);
    var w1 := Slice(d.text, s, s) + t1 + Slice(d.text, l, e);
    var w2 := Slice(d1.text, s, a1) + t2 + Slice(d1.text, a1 + (b - a), e1);
    Then(d, d1, d2, s, e, w1, w2, false);
    Then(d, d2, d3, s, e, w2, Slice(d2.text, s, r2) + t3 + Slice(d2.text, e2, e2), false);
    assert Slice(d2.text, s, r2) + t3 + Slice(d2.text, e2, e2) == t1 + Slice(d.text, l, a) + t2 + Slice(d.text, b, r) +
        t3;
  }

  lemma SliceLength(text: Text, from: nat, to: nat)
    requires from <= to <= |text|
    ensures |Slice(text, from, to)| == to - from
  {
  }

  lemma {:induction false} InvertOperandText(d: Doc, n: Node)
    requires Fits(d, n, false)
    ensures Replaced(d, InvertOperandDoc(d, n), Start(d, n.el), End(d, n.el), Unparse(InvertedOperand(Read(d, n))),
            false)
    decreases n, 1
  {
    hide InvertDoc, Replaced, Slice;
    if n.Binary? {
      InvertText(d, n);
    } else if AsBinary(n).Binary? {
      InvertText(d, n.inner);
      Widen(d, InvertDoc(d, n.inner), Start(d, n.inner.el), End(d, n.inner.el), Unparse(Inverted(Read(d, n.inner))),
            Start(d, n.el), End(d, n.el), false);
    } else {
      UnparseRead(d, n, false);
      ReplacedNothing(d, Start(d, n.el), End(d, n.el), false);
    }
  }

  /** The document after `invert` reads as intended even where no gap keeps operands
      and operators apart; only the elements inside the node may then be wrong. */
  lemma {:induction false} InvertText(d: Doc, n: Node)
    requires n.Binary? && Fits(d, n, false)
    ensures Replaced(d, InvertDoc(d, n), Start(d, n.el), End(d, n.el), Unparse(Inverted(Read(d, n))), false)
    decreases n, 0
  {
    hide Replaced, FlipOperator, Flip, InvertOperandDoc, InvertedOperand, Slice, TextReplaced, Start, End, Fits, Read;
    var d1 := InvertOperandDoc(d, n.left);
    var d2 := FlipOperator(d1, n.op);
    Parts(d, n, false);
    PartsRead(d, n);
    InvertOperandText(d, n.left);
    var s, l, e := Start(d, n.el), End(d, n.left.el), End(d, n.el);
    var t1 := Unparse(InvertedOperand(Read(d, n.left)));
    Around(d, d1, s, l, t1, n.el, false);
    MovedBehind(d, d1, s, l, t1, n.op, false);
    TreeBehind(d, d1, s, l, t1, n.right, false, false);
    ReadBehind(d, d1, s, l, t1, Start(d, n.op), End(d, n.op), Start(d1, n.op), End(d1, n.op), false);
    FlipReplacesLoosely(d1, n.op);
    var a1, b1 := Start(d1, n.op), End(d1, n.op);
    var t2 := Flip(Slice(d.text, Start(d, n.op), End(d, n.op)));
    Around(d1, d2, a1, b1, t2, n.el, false);
    TreeBehind(d1, d2, a1, b1, t2, n.right, false, false);
    InvertOperandText(d2, n.right);
    ThreeSteps(d, d1, d2, InvertOperandDoc(d2, n.right), s, l, Start(d, n.op), End(d, n.op), Start(d, n.right.el), e,
               a1, Start(d2, n.right.el), End(d2, n.right.el), t1, t2, Unparse(InvertedOperand(Read(d2, n.right))));
  }

  // ----- De Morgan -----

  /** `deMorgans`: inverts, then wraps what the node reads as. */
  function DeMorganDoc(d: Doc, n: Node): Doc
    requires n.Binary?
  {
    var now := InvertDoc(d, n);
    if InText(now, n.el) then
      EditText(now, n.el, "!(" + Slice(now.text, Start(now, n.el), End(now, n.el)) + ")")
    else now
  }

  lemma DeMorganText(d: Doc, n: Node)
    requires n.Binary? && Fits(d, n, false)
    ensures TextReplaced(d.text, DeMorganDoc(d, n).text, Start(d, n.el), End(d, n.el),
                         "!(" + Unparse(Inverted(Read(d, n))) + ")")
  {
    hide InvertDoc, Replaced, Unparse, Inverted, Read, Fits;
    PartsRead(d, n);
    var now := InvertDoc(d, n);
    var t := Unparse(Inverted(Read(d, n)));
    var s, e := Start(d, n.el), End(d, n.el);
    InTree(d, n, false);
    InvertText(d, n);
    Around(d, now, s, e, t, n.el, false);
    ReplacedText(d, now, s, e, t, false);
    Cut(d.text, now.text, s, e, t);
    assert now.text[..s] == d.text[..s];
    assert now.text[s + |t|..] == d.text[e..];
  }

  // ----- how good the table is -----

  /** No operator that `invert` flips is `>` or `<=`. */
  predicate NoLostOrder(s: Source)
    decreases s
  {
    match s
    case Infix(l, _, op, _, r) => op != ">" && op != "<=" && NoLostOrder(l) && NoLostOrder(r)
    case Parens(_, inner, _) => inner.Infix? ==> NoLostOrder(inner)
    case Verbatim(_) => true
  }

  /** Flipping an operator twice gives it back, except where the order is lost. */
  lemma FlipTwice(op: Text)
    ensures Flip(Flip(op)) == op <==> op != ">" && op != "<="
  {
  }

  /** Inverting twice gives the expression back exactly when it has no `>` and no `<=`:
      the table sends `<=` to `>=`. */
  lemma {:induction false} InvertTwice(s: Source)
    ensures InvertedOperand(InvertedOperand(s)) == s <==> NoLostOrder(s)
  {
    hide Flip;
    match s
    case Infix(l, _, op, _, r) =>
      FlipTwice(op);
      InvertTwice(l);
      InvertTwice(r);
    case Parens(_, inner, _) =>
      if inner.Infix? {
        InvertTwice(inner);
      }
    case Verbatim(_) =>
  }

  lemma ShiftMoves(x: nat, difference: int)
    requires difference != 0 && difference + UINT_MODULUS > 0
    ensures Shift(x, difference) != x
  {
  }

  /** What the gap is for: an operator whose length changes leaves its left operand
      where it was if and only if something stands between them. */
  lemma GapExactlyWhen(d: Doc, n: Node)
    requires n.Binary? && Fits(d, n, false) && |d.text| < UINT_MODULUS
    requires var op := Slice(d.text, Start(d, n.op), End(d, n.op)); |Flip(op)| != |op|
    ensures End(FlipOperator(d, n.op), n.left.el) == End(d, n.left.el) <==> End(d, n.left.el) < Start(d, n.op)
  {
    hide Flip, Fits, Shift;
    Parts(d, n, false);
    var left, op := d.spans[n.left.el], d.spans[n.op];
    var text := Slice(d.text, op.start, op.end);
    assert FlipOperator(d, n.op) == EditText(d, n.op, Flip(text));
    assert FlipOperator(d, n.op).spans[n.left.el] == EditSpan(left, op.start, op.end, op.start + |Flip(text)|);
    if left.end == op.start {
      ShiftMoves(left.end, |Flip(text)| - |text|);
    }
  }
}
