/** What inverting means: the rewritten condition and the original, compared by truth. */
module EditMeaning {
  import opened Texts
  import opened Edits

  /** What operands stand for.  An operand of a comparison is a number, and an operand of
      a connective is true or false.  Strict and loose equality are unrelated. */
  datatype World = World(
    number: Text -> int, truth: Text -> bool, strict: (int, int) -> bool, loose: (int, int) -> bool)

  predicate IsConnective(op: Text) {
    op == "&&" || op == "||"
  }

  predicate IsComparison(op: Text) {
    op in {"===", "!==", "==", "!=", "<", "<=", ">", ">="}
  }

  function Connected(op: Text, p: bool, q: bool): bool
    requires IsConnective(op)
  {
    if op == "&&" then p && q else p || q
  }

  function Compared(op: Text, x: int, y: int, w: World): bool
    requires IsComparison(op)
  {
    if op == "===" then w.strict(x, y)
    else if op == "!==" then !w.strict(x, y)
    else if op == "==" then w.loose(x, y)
    else if op == "!=" then !w.loose(x, y)
    else if op == "<" then x < y
    else if op == "<=" then x <= y
    else if op == ">" then x > y
    else x >= y
  }

  // ----- one operator -----

  /** A flipped comparison holds exactly where the original does not, except for `<=`,
      whose opposite is wrong where both sides are equal. */
  lemma FlippedComparison(op: Text, x: int, y: int, w: World)
    requires IsComparison(op)
    ensures IsComparison(Flip(op))
    ensures Compared(Flip(op), x, y, w) == !Compared(op, x, y, w) <==> op != "<=" || x != y
  {
  }

  /** A flipped connective of negated operands is the negation of the original. */
  lemma FlippedConnective(op: Text, p: bool, q: bool)
    requires IsConnective(op)
    ensures IsConnective(Flip(op)) && Connected(Flip(op), !p, !q) == !Connected(op, p, q)
  {
  }

  /** All other operators stay. */
  lemma OtherOperatorsStay(op: Text)
    ensures Flip(op) == op <==> !IsComparison(op) && !IsConnective(op)
  {
  }

  // ----- whole conditions -----

  /** Does the condition hold?  Whatever is not joined by one of the ten operators counts
      as one operand, known by its text. */
  predicate Holds(s: Source, w: World) {
    match s
    case Infix(l, _, op, _, r) =>
      if IsConnective(op) then Connected(op, Holds(l, w), Holds(r, w))
      else if IsComparison(op) then Compared(op, w.number(Unparse(l)), w.number(Unparse(r)), w)
      else w.truth(Unparse(s))
    case Parens(_, inner, _) => if inner.Infix? then Holds(inner, w) else w.truth(Unparse(s))
    case Verbatim(text) => w.truth(text)
  }

  /** Nothing in the operand can be flipped. */
  predicate Steady(s: Source) {
    match s
    case Infix(l, _, op, _, r) => !IsConnective(op) && !IsComparison(op) && Steady(l) && Steady(r)
    case Parens(_, inner, _) => inner.Infix? ==> Steady(inner)
    case Verbatim(_) => true
  }

  /** Comparisons of steady operands, joined by `&&` and `||`, with single parentheses
      anywhere, and steady operands by themselves. */
  predicate Logical(s: Source) {
    match s
    case Infix(l, _, op, _, r) =>
      if IsConnective(op) then Logical(l) && Logical(r)
      else Steady(l) && Steady(r)
    case Parens(_, inner, _) => inner.Infix? ==> Logical(inner)
    case Verbatim(_) => true
  }

  /** No `<=` in the condition compares equal numbers. */
  predicate NoTies(s: Source, w: World) {
    match s
    case Infix(l, _, op, _, r) =>
      if IsConnective(op) then NoTies(l, w) && NoTies(r, w)
      else op == "<=" ==> w.number(Unparse(l)) != w.number(Unparse(r))
    case Parens(_, inner, _) => inner.Infix? ==> NoTies(inner, w)
    case Verbatim(_) => true
  }

  /** The same operands, each standing for the opposite. */
  function Opposite(w: World): World {
    w.(truth := t => !w.truth(t))
  }

  lemma {:induction false} SteadyStays(s: Source)
    requires Steady(s)
    ensures InvertedOperand(s) == s
  {
    match s
    case Infix(l, _, op, _, r) =>
      SteadyStays(l);
      SteadyStays(r);
      OtherOperatorsStay(op);
    case Parens(_, inner, _) => if inner.Infix? { SteadyStays(inner); }
    case Verbatim(_) =>
  }

  /** Inverting a condition negates it, its operands negated: connectives and comparisons
      are turned around, at any depth, and the operands of connectives are left to the
      caller. */
  lemma {:induction false} InvertedNegates(s: Source, w: World)
    requires Logical(s) && NoTies(s, w)
    ensures Holds(InvertedOperand(s), w) == !Holds(s, Opposite(w))
  {
    match s
    case Infix(l, _, op, _, r) =>
      if IsConnective(op) {
        InvertedNegates(l, w);
        InvertedNegates(r, w);
        FlippedConnective(op, Holds(l, Opposite(w)), Holds(r, Opposite(w)));
      } else {
        SteadyStays(l);
        SteadyStays(r);
        if IsComparison(op) {
          FlippedComparison(op, w.number(Unparse(l)), w.number(Unparse(r)), w);
        } else {
          OtherOperatorsStay(op);
        }
      }
    case Parens(_, inner, _) => if inner.Infix? { InvertedNegates(inner, w); }
    case Verbatim(_) =>
  }

  // ----- deMorgan's -----

  /** All that is joined is a comparison. */
  predicate OnlyComparisons(s: Source) {
    match s
    case Infix(l, _, op, _, r) =>
      if IsConnective(op) then OnlyComparisons(l) && OnlyComparisons(r) else IsComparison(op)
    case Parens(_, inner, _) => inner.Infix? && OnlyComparisons(inner)
    case Verbatim(_) => false
  }

  lemma {:induction false} NoOperands(s: Source, w: World)
    requires OnlyComparisons(s)
    ensures Holds(s, Opposite(w)) == Holds(s, w)
  {
    match s
    case Infix(l, _, op, _, r) =>
      if IsConnective(op) {
        NoOperands(l, w);
        NoOperands(r, w);
      }
    case Parens(_, inner, _) => NoOperands(inner, w);
  }

  /** "Apply deMorgan's" puts the inverted condition behind a negation.  The result means
      the original with its operands negated, which is the original itself where
      connectives join nothing but comparisons. */
  lemma DeMorganMeaning(s: Source, w: World)
    requires s.Infix? && Logical(s) && NoTies(s, w)
    ensures !Holds(Inverted(s), w) <==> Holds(s, Opposite(w))
    ensures OnlyComparisons(s) ==> (!Holds(Inverted(s), w) <==> Holds(s, w))
  {
    InvertedNegates(s, w);
    if OnlyComparisons(s) {
      NoOperands(s, w);
    }
  }

  /** For a single comparison the exact condition: both sides of a `<=` differ. */
  lemma ComparisonInverted(s: Source, w: World)
    requires s.Infix? && IsComparison(s.op) && Steady(s.left) && Steady(s.right)
    ensures Holds(Inverted(s), w) == !Holds(s, w) <==>
            s.op != "<=" || w.number(Unparse(s.left)) != w.number(Unparse(s.right))
  {
    SteadyStays(s.left);
    SteadyStays(s.right);
    FlippedComparison(s.op, w.number(Unparse(s.left)), w.number(Unparse(s.right)), w);
  }
}
