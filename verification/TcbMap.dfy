/** The generated type-check block as a value: parts of text with the offsets they were
    given, in a tree of scopes. */
module TcbMap {
  import opened Options
  import opened Texts

  /** Where a part comes from in the template.  Copies of a part share it. */
  class PugSpan {
    var startOffset: int
    var endOffset: int

    constructor (startOffset: int, endOffset: int)
      ensures this.startOffset == startOffset && this.endOffset == endOffset
    {
      this.startOffset, this.endOffset := startOffset, endOffset;
    }
  }

  /** `scope` is set on the part that stands for a whole inner scope; scopes are
      numbered in the order they are opened. */
  datatype Part = Part(id: nat, text: Text, start: nat, end: Option<nat>, scope: Option<nat>, pug: PugSpan?)

  /** `sb` is the length of the statement's string builder. */
  datatype Built = Built(parts: seq<Part>, sb: nat)

  const NOTHING := Built([], 0)

  // ----- statements -----

  function AddPart(b: Built, p: Part): Built {
    Built(b.parts + [p], b.sb + |p.text|)
  }

  function AddText(b: Built, id: nat, text: Text, pug: PugSpan?): Built {
    AddPart(b, Part(id, text, b.sb, Some(b.sb + |text|), None, pug))
  }

  /** Both ends are set. */
  predicate Timed(p: Part) {
    p.end.Some? && p.start <= p.end.value
  }

  predicate AllTimed(parts: seq<Part>) {
    forall i :: 0 <= i < |parts| ==> Timed(parts[i])
  }

  function Span(p: Part): nat
    requires Timed(p)
  {
    p.end.value - p.start
  }

  /** A copy at the end of a statement: as long as the original claims to be. */
  function CopyAt(p: Part, id: nat, start: nat): Part
    requires Timed(p)
  {
    Part(id, p.text, start, Some(start + Span(p)), None, p.pug)
  }

  /** `AddStatement`. */
  function AddStatement(b: Built, parts: seq<Part>, id: nat): (r: Built)
    requires AllTimed(parts)
    decreases |parts|
  {
    if parts == [] then b
    else AddPart(AddStatement(b, parts[..|parts| - 1], id),
                 CopyAt(parts[|parts| - 1], id + |parts| - 1, AddStatement(b, parts[..|parts| - 1], id).sb))
  }

  function IndexOf(parts: seq<Part>, id: nat): (k: nat)
    ensures k <= |parts| && (forall i :: 0 <= i < k ==> parts[i].id != id) && (k < |parts| ==> parts[k].id == id)
    decreases |parts|
  {
    if parts == [] || parts[0].id == id then 0 else 1 + IndexOf(parts[1..], id)
  }

  function TotalSpan(parts: seq<Part>): nat
    requires AllTimed(parts)
    decreases |parts|
  {
    if parts == [] then 0 else TotalSpan(parts[..|parts| - 1]) + Span(parts[|parts| - 1])
  }

  function ShiftPart(p: Part, more: nat): Part {
    p.(start := p.start + more, end := if p.end.Some? then Some(p.end.value + more) else None)
  }

  function ShiftAll(parts: seq<Part>, more: nat): (r: seq<Part>)
    ensures |r| == |parts| && forall i :: 0 <= i < |parts| ==> r[i] == ShiftPart(parts[i], more)
  {
    seq(|parts|, i requires 0 <= i < |parts| => ShiftPart(parts[i], more))
  }

  /** `AddStatementAfterPart`: in the middle of a statement the new parts keep their
      own offsets, the builder hears nothing of them, and the parts behind move. */
  function Splice(b: Built, parts: seq<Part>, after: nat, id: nat): Built
    requires AllTimed(parts)
  {
    var k := IndexOf(b.parts, after);
    if k + 1 >= |b.parts| then (if k == |b.parts| then b else AddStatement(b, parts, id))
    else b.(parts := b.parts[..k + 1] + parts + ShiftAll(b.parts[k + 1..], TotalSpan(parts)))
  }

  /** `AddScopePart`: the part begins where the last one ends. */
  function AddScopePart(b: Built, scope: nat, id: nat): Built
    requires b.parts != [] ==> b.parts[|b.parts| - 1].end.Some?
  {
    var start := if b.parts == [] then 0 else b.parts[|b.parts| - 1].end.value;
    AddPart(b, Part(id, "", start, None, Some(scope), null))
  }

  /** `CloseScopePart`: whichever part is last is taken for the scope's. */
  function CloseScopePart(b: Built): Built
    requires b.parts != []
  {
    var k := |b.parts| - 1;
    b.(parts := b.parts[k := b.parts[k].(end := Some(b.parts[k].start + b.sb))])
  }

  // ----- exact offsets -----

  function TextLength(parts: seq<Part>): nat
    decreases |parts|
  {
    if parts == [] then 0 else TextLength(parts[..|parts| - 1]) + |parts[|parts| - 1].text|
  }

  /** The text of a statement. */
  function Render(parts: seq<Part>): Text
    decreases |parts|
  {
    if parts == [] then "" else Render(parts[..|parts| - 1]) + parts[|parts| - 1].text
  }

  lemma {:induction false} RenderLength(parts: seq<Part>)
    ensures |Render(parts)| == TextLength(parts)
    decreases |parts|
  {
    if parts != [] {
      RenderLength(parts[..|parts| - 1]);
    }
  }

  /** Every part starts where the texts before it end, and the builder agrees. */
  predicate Exact(b: Built) {
    && b.sb == TextLength(b.parts)
    && forall i {:trigger b.parts[i]} :: 0 <= i < |b.parts| ==> b.parts[i].start == TextLength(b.parts[..i])
  }

  lemma ExactPart(b: Built, p: Part)
    requires Exact(b) && p.start == b.sb
    ensures Exact(AddPart(b, p))
  {
    var r := AddPart(b, p);
    assert r.parts[..|b.parts|] == b.parts;
    forall i | 0 <= i < |r.parts|
      ensures r.parts[i].start == TextLength(r.parts[..i])
    {
      if i < |b.parts| {
        assert r.parts[..i] == b.parts[..i];
      }
    }
  }

  /** `q` is a copy of `p`: same text, same place in the template, same length. */
  predicate IsCopy(p: Part, q: Part) {
    Timed(p) && Timed(q) && q.text == p.text && q.pug == p.pug && Span(q) == Span(p) && q.scope == None
  }

  /** What a copied statement looks like, wherever it is put. */
  lemma {:induction false} AddStatementShape(b: Built, parts: seq<Part>, id: nat)
    requires AllTimed(parts)
    ensures var r := AddStatement(b, parts, id);
            && |r.parts| == |b.parts| + |parts| && r.parts[..|b.parts|] == b.parts && (Exact(b) ==> Exact(r))
            && forall i {:trigger parts[i]} :: 0 <= i < |parts| ==> IsCopy(parts[i], r.parts[|b.parts| + i])
    decreases |parts|
  {
    if parts != [] {
      var front := parts[..|parts| - 1];
      AddStatementShape(b, front, id);
      var f := AddStatement(b, front, id);
      var r := AddStatement(b, parts, id);
      if Exact(b) {
        ExactPart(f, CopyAt(parts[|parts| - 1], id + |parts| - 1, f.sb));
      }
      forall i | 0 <= i < |parts|
        ensures IsCopy(parts[i], r.parts[|b.parts| + i])
      {
        if i < |front| {
          assert IsCopy(front[i], f.parts[|b.parts| + i]);
        }
      }
      assert r.parts[..|b.parts|] == f.parts[..|b.parts|];
    }
  }

  // ----- lookups -----

  /** `TsToPugLocation`: the first part whose recorded range holds the offset. */
  function TsToPug(parts: seq<Part>, offset: nat): (r: Option<nat>)
    requires AllTimed(parts)
    ensures r.Some? ==>
              && r.value < |parts| && Holds(parts[r.value], offset)
              && forall i :: 0 <= i < r.value ==> !Holds(parts[i], offset)
    ensures r.None? ==> forall i :: 0 <= i < |parts| ==> !Holds(parts[i], offset)
    decreases |parts|
  {
    if parts == [] then None
    else
      var front := parts[..|parts| - 1];
      assert forall i :: 0 <= i < |front| ==> front[i] == parts[i];
      var f := TsToPug(front, offset);
      if f.Some? then f
      else if Holds(parts[|parts| - 1], offset) then Some(|parts| - 1) else None
  }

  predicate Holds(p: Part, offset: nat)
    requires Timed(p)
  {
    p.start <= offset < p.end.value
  }

  /** The text of part `i` holds the offset. */
  predicate Covers(parts: seq<Part>, i: nat, offset: nat)
    requires i < |parts|
  {
    TextLength(parts[..i]) <= offset < TextLength(parts[..i + 1])
  }

  /** Every offset of the text is traced to the part whose text holds it. */
  ghost predicate Faithful(parts: seq<Part>)
    requires AllTimed(parts)
  {
    forall offset: nat, i: nat :: i < |parts| && Covers(parts, i, offset) ==> TsToPug(parts, offset) == Some(i)
  }

  /** A part that claims to be longer than its text. */
  predicate Overlong(p: Part) {
    Timed(p) && Span(p) > |p.text|
  }

  predicate AtLeastText(parts: seq<Part>) {
    forall i :: 0 <= i < |parts| ==> Timed(parts[i]) && Span(parts[i]) >= |parts[i].text|
  }

  lemma {:induction false} PrefixLength(parts: seq<Part>, i: nat, j: nat)
    requires i <= j <= |parts|
    ensures TextLength(parts[..i]) <= TextLength(parts[..j])
    ensures i < j ==> TextLength(parts[..i]) + |parts[i].text| <= TextLength(parts[..j])
    decreases j - i
  {
    if i < j {
      assert parts[..i + 1][..i] == parts[..i];
      PrefixLength(parts, i + 1, j);
    }
  }

  /** Source-map exactness.  In a statement with exact starts, every offset is traced
      to the right part if and only if no overlong part is followed by any text. */
  lemma FaithfulExactlyWhen(b: Built)
    requires Exact(b) && AtLeastText(b.parts)
    ensures Faithful(b.parts) <==>
            forall i :: 0 <= i < |b.parts| && Overlong(b.parts[i]) ==> TextLength(b.parts[..i + 1]) == b.sb
  {
    var parts := b.parts;
    assert parts[..|parts|] == parts;
    if forall i :: 0 <= i < |parts| && Overlong(parts[i]) ==> TextLength(parts[..i + 1]) == b.sb {
      forall offset: nat, i: nat | i < |parts| && Covers(parts, i, offset)
        ensures TsToPug(parts, offset) == Some(i)
      {
        FoundWhereCovered(b, i, offset);
      }
    } else {
      var i :| 0 <= i < |parts| && Overlong(parts[i]) && TextLength(parts[..i + 1]) != b.sb;
      PrefixLength(parts, i + 1, |parts|);
      OverlongShadows(b, i);
    }
  }

  lemma OneMoreText(parts: seq<Part>, j: nat)
    requires j < |parts|
    ensures TextLength(parts[..j + 1]) == TextLength(parts[..j]) + |parts[j].text|
  {
    assert parts[..j + 1][..j] == parts[..j];
  }

  /** No part before the one that covers the offset holds it. */
  lemma EarlierMisses(b: Built, i: nat, j: nat, offset: nat)
    requires Exact(b) && AtLeastText(b.parts) && j < i < |b.parts| && Covers(b.parts, i, offset)
    requires Overlong(b.parts[j]) ==> TextLength(b.parts[..j + 1]) == b.sb
    ensures !Holds(b.parts[j], offset)
  {
    hide TextLength;
    var parts := b.parts;
    PrefixLength(parts, j, j + 1);
    PrefixLength(parts, j + 1, i);
    PrefixLength(parts, i + 1, |parts|);
    assert parts[..|parts|] == parts;
    OneMoreText(parts, j);
  }

  lemma FoundWhereCovered(b: Built, i: nat, offset: nat)
    requires Exact(b) && AtLeastText(b.parts) && i < |b.parts| && Covers(b.parts, i, offset)
    requires forall j :: 0 <= j < |b.parts| && Overlong(b.parts[j]) ==> TextLength(b.parts[..j + 1]) == b.sb
    ensures TsToPug(b.parts, offset) == Some(i)
  {
    hide TextLength, Overlong;
    assert Holds(b.parts[i], offset) by {
      CoveredIsHeld(b, i, offset);
    }
    hide Exact, Covers, Holds;
    forall j | 0 <= j < i
      ensures !Holds(b.parts[j], offset)
    {
      EarlierMisses(b, i, j, offset);
    }
  }

  lemma CoveredIsHeld(b: Built, i: nat, offset: nat)
    requires Exact(b) && AtLeastText(b.parts) && i < |b.parts| && Covers(b.parts, i, offset)
    ensures Timed(b.parts[i]) && Holds(b.parts[i], offset)
  {
    assert b.parts[..i + 1][..i] == b.parts[..i];
  }

  lemma OverlongShadows(b: Built, i: nat)
    requires Exact(b) && AtLeastText(b.parts) && i < |b.parts| && Overlong(b.parts[i])
             && TextLength(b.parts[..i + 1]) < b.sb
    ensures !Faithful(b.parts)
  {
    var parts := b.parts;
    var offset := TextLength(parts[..i + 1]);
    assert parts[..i + 1][..i] == parts[..i];
    assert Holds(parts[i], offset);
    var k := CoveringPart(parts, offset);
    if k <= i {
      PrefixLength(parts, k + 1, i + 1);
    }
    assert TsToPug(parts, offset) != Some(k);
  }

  lemma {:induction false} CoveringPart(parts: seq<Part>, offset: nat) returns (k: nat)
    requires offset < TextLength(parts)
    ensures k < |parts| && Covers(parts, k, offset)
    decreases |parts|
  {
    var front := parts[..|parts| - 1];
    if offset < TextLength(front) {
      k := CoveringPart(front, offset);
      assert front[..k] == parts[..k] && front[..k + 1] == parts[..k + 1];
    } else {
      k := |parts| - 1;
      assert parts[..|parts|] == parts;
    }
  }
}
