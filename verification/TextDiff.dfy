/** The one text edit that a session sends for all its changes. */
module TextDiff {
  import opened Texts
  import opened Positions

  datatype Range = Range(start: Position, end: Position)

  datatype TextEdit = TextEdit(range: Range, newText: Text)

  /** `Panic` is a slice with its end below its start. */
  datatype Diff = NoEdit | Edit(edit: TextEdit) | Panic

  // ----- what the two scans find -----

  /** Length of the common prefix. */
  function Prefix(a: Text, b: Text): (n: nat)
    ensures n <= |a| && n <= |b| && a[..n] == b[..n]
    ensures n < |a| && n < |b| ==> a[n] != b[n]
    decreases |a|
  {
    if a == [] || b == [] || a[0] != b[0] then 0
    else
      var n := Prefix(a[1..], b[1..]);
      assert a[..n + 1] == [a[0]] + a[1..][..n];
      assert b[..n + 1] == [b[0]] + b[1..][..n];
      n + 1
  }

  /** Where the edit starts: at the last byte of the common prefix, not after it. */
  function EditStart(before: Text, after: Text): (s: nat)
    ensures s == 0 || (s < |before| && s < |after|)
    ensures s <= |before| && s <= |after| && before[..s] == after[..s]
  {
    var n := Prefix(after, before);
    if n == 0 then 0 else
      assert after[..n - 1] == after[..n][..n - 1];
      assert before[..n - 1] == before[..n][..n - 1];
      n - 1
  }

  /** Length of the common suffix of what lies behind the first `s` bytes. */
  function Suffix(a: Text, b: Text, s: nat): (n: nat)
    ensures n == 0 || (n <= |a| - s && n <= |b| - s)
    ensures n <= |a| && n <= |b| && a[|a| - n..] == b[|b| - n..]
    ensures n < |a| - s && n < |b| - s ==> a[|a| - n - 1] != b[|b| - n - 1]
    decreases |a|
  {
    if |a| <= s || |b| <= s || a[|a| - 1] != b[|b| - 1] then 0
    else
      var a', b' := a[..|a| - 1], b[..|b| - 1];
      var n := Suffix(a', b', s);
      assert n <= |a'| && n <= |b'|;
      SuffixGrows(a, b, n);
      n + 1
  }

  lemma SuffixGrows(a: Text, b: Text, n: nat)
    requires n < |a| && n < |b| && a[|a| - 1] == b[|b| - 1]
    requires a[..|a| - 1][|a| - 1 - n..] == b[..|b| - 1][|b| - 1 - n..]
    ensures a[|a| - n - 1..] == b[|b| - n - 1..]
  {
    assert a[|a| - n - 1..] == a[..|a| - 1][|a| - 1 - n..] + [a[|a| - 1]];
    assert b[|b| - n - 1..] == b[..|b| - 1][|b| - 1 - n..] + [b[|b| - 1]];
  }

  /** The ends of the edit, in both texts: never behind the last byte. */
  function EditEnd(text: Text, suffix: nat): int {
    Min(|text| - suffix, |text| - 1)
  }

  /** `buildLspTextEdits`. */
  function DiffOf(before: Text, after: Text): Diff {
    var s := EditStart(before, after);
    var n := Suffix(after, before, s);
    var a, b := EditEnd(after, n), EditEnd(before, n);
    if a == -1 && b == -1 then NoEdit
    else if a < s then Panic
    else Edit(TextEdit(Range(PositionOf(before, s), PositionOf(before, b)), after[s..a]))
  }

  method BuildLspTextEdits(before: Text, after: Text) returns (r: Diff)
    ensures r == DiffOf(before, after)
  {
    hide PositionOf, Prefix, Suffix, EditStart;
    var editStart := FindEditStart(before, after);
    var afterEditEnd, beforeEditEnd := FindEditEnds(before, after, editStart);
    if afterEditEnd == -1 && beforeEditEnd == -1 {
      return NoEdit;
    }
    var startPosition := GetPositionForOffset(before, editStart);
    var endPosition := GetPositionForOffset(before, beforeEditEnd);
    if afterEditEnd < editStart {
      return Panic;
    }
    return Edit(TextEdit(Range(startPosition, endPosition), after[editStart..afterEditEnd]));
  }

  /** The first loop: the edit starts at the last byte that was equal. */
  method FindEditStart(before: Text, after: Text) returns (editStart: nat)
    ensures editStart == EditStart(before, after)
  {
    hide Prefix;
    ghost var prefix := Prefix(after, before);
    editStart := 0;
    for i := 0 to |after|
      invariant i <= prefix && editStart == if i == 0 then 0 else i - 1
    {
      if i >= |before| { break; }
      if after[i] != before[i] { break; }
      PrefixCovers(after, before, i);
      editStart := i;
    }
  }

  /** The second loop, and the step back to the last equal byte. */
  method FindEditEnds(before: Text, after: Text, editStart: nat) returns (afterEditEnd: int, beforeEditEnd: int)
    ensures var n := Suffix(after, before, editStart);
            afterEditEnd == EditEnd(after, n) && beforeEditEnd == EditEnd(before, n)
  {
    hide Suffix;
    ghost var n := Suffix(after, before, editStart);
    ghost var k := 0;
    afterEditEnd := |after| - 1;
    beforeEditEnd := |before| - 1;
    while afterEditEnd >= editStart && beforeEditEnd >= editStart
      invariant k <= n && afterEditEnd == |after| - 1 - k && beforeEditEnd == |before| - 1 - k
    {
      if after[afterEditEnd] != before[beforeEditEnd] { break; }
      SuffixCovers(after, before, editStart, k);
      afterEditEnd := afterEditEnd - 1;
      beforeEditEnd := beforeEditEnd - 1;
      k := k + 1;
    }
    afterEditEnd := Min(afterEditEnd + 1, |after| - 1);
    beforeEditEnd := Min(beforeEditEnd + 1, |before| - 1);
  }

  /** The scan goes on exactly as far as the common prefix. */
  lemma PrefixCovers(a: Text, b: Text, i: nat)
    requires i < |a| && i < |b| && i <= Prefix(a, b)
    ensures a[i] == b[i] <==> i + 1 <= Prefix(a, b)
  {
    var n := Prefix(a, b);
    if i < n {
      assert a[i] == a[..n][i] && b[i] == b[..n][i];
    }
  }

  lemma SuffixCovers(a: Text, b: Text, s: nat, k: nat)
    requires k < |a| - s && k < |b| - s && k <= Suffix(a, b, s)
    ensures a[|a| - 1 - k] == b[|b| - 1 - k] <==> k + 1 <= Suffix(a, b, s)
  {
    var n := Suffix(a, b, s);
    if k < n {
      assert a[|a| - 1 - k] == a[|a| - n..][n - 1 - k] && b[|b| - 1 - k] == b[|b| - n..][n - 1 - k];
    }
  }

  // ----- what the edit does -----

  function Splice(text: Text, start: nat, end: nat, new_: Text): Text
    requires start <= end <= |text|
  {
    text[..start] + new_ + text[end..]
  }

  /** The text a client has after the edit, its positions resolved as File does. */
  function Applied(text: Text, d: Diff): Text {
    match d
    case NoEdit => text
    case Panic => text
    case Edit(e) =>
      var lines := LineStarts(text);
      var s, t := OffsetOf(lines, |text|, e.range.start), OffsetOf(lines, |text|, e.range.end);
      if s <= t <= |text| then Splice(text, s, t, e.newText) else text
  }

  predicate SameLast(a: Text, b: Text) {
    a != [] && b != [] && a[|a| - 1] == b[|b| - 1]
  }

  /** What lies between the two ends, when both texts end in the same byte. */
  lemma SameTail(before: Text, after: Text, s: nat, n: nat)
    requires SameLast(before, after) && s < |before| && s < |after| && n == Suffix(after, before, s)
    ensures 0 < n <= |after| - s && n <= |before| - s && before[|before| - n..] == after[|after| - n..]
  {
    hide Suffix;
    SuffixCovers(after, before, s, 0);
  }

  /** The offsets behind the edit's positions cut the right piece out exactly when
      both texts end in the same byte: the last byte always survives. */
  lemma OffsetsRestore(before: Text, after: Text)
    requires before != [] && after != []
    ensures var s := EditStart(before, after);
            var n := Suffix(after, before, s);
            var a, b := EditEnd(after, n), EditEnd(before, n);
            && s <= a <= |after| && s <= b < |before|
            && (Splice(before, s, b, after[s..a]) == after <==> SameLast(before, after))
  {
    hide Prefix, Suffix, EditStart;
    var s := EditStart(before, after);
    var n := Suffix(after, before, s);
    var a, b := EditEnd(after, n), EditEnd(before, n);
    if SameLast(before, after) {
      SameTail(before, after, s, n);
      Reassembled(before, after, s, a, b);
    } else {
      var r := Splice(before, s, b, after[s..a]);
      assert r[|r| - 1] == before[|before| - 1];
    }
  }

  lemma Reassembled(before: Text, after: Text, s: nat, a: nat, b: nat)
    requires s <= a <= |after| && s <= b <= |before| && before[..s] == after[..s] && before[b..] == after[a..]
    ensures Splice(before, s, b, after[s..a]) == after
  {
    assert after == after[..s] + after[s..a] + after[a..];
  }

  /** Minimal-edit correctness.  In a document that is empty or ends in a line break,
      sending the one edit gives the intended document if and only if both documents
      are empty or both end in the same byte. */
  lemma EditRestoresExactlyWhen(before: Text, after: Text)
    requires before == [] || EndsInBreak(before)
    requires |before| < UINT_MODULUS
    ensures Applied(before, DiffOf(before, after)) == after <==>
            (before == [] && after == []) || SameLast(before, after)
    ensures DiffOf(before, after).Panic? <==> before != [] && after == []
  {
    hide ToUint, OffsetOf, PositionOf, Prefix, Suffix, EditStart;
    if before == [] {
      EmptyBefore(after);
    } else if after != [] {
      OffsetsRestore(before, after);
      var s := EditStart(before, after);
      var b := EditEnd(before, Suffix(after, before, s));
      OffsetRoundTrips(before, s);
      OffsetRoundTrips(before, b);
    }
  }

  lemma EmptyBefore(after: Text)
    ensures Applied([], DiffOf([], after)) == after <==> after == []
    ensures !DiffOf([], after).Panic?
  {
    NoLines();
    if after != [] {
      var d := DiffOf([], after);
      assert d.edit.newText == after[0..|after| - 1];
      assert |Applied([], d)| < |after|;
    }
  }

  // ----- how little is sent -----

  /** The offset a client finds for a position. */
  function Resolved(text: Text, p: Position): nat {
    OffsetOf(LineStarts(text), |text|, p)
  }

  /** The texts agree up to byte `s`, that byte included, and no further; where already
      their first bytes differ, `s` is zero. */
  predicate LastAgreement(before: Text, after: Text, s: nat) {
    if before == [] || after == [] || before[0] != after[0] then s == 0
    else
      && s < |before| && s < |after| && (forall i :: 0 <= i <= s ==> before[i] == after[i])
      && (s + 1 < |before| && s + 1 < |after| ==> before[s + 1] != after[s + 1])
  }

  /** The edit is as small as the code makes it: it starts at the last byte of the common
      prefix, and it ends where going back from the ends the texts differ for the first
      time, or where one of them is used up. */
  lemma EditIsTight(before: Text, after: Text)
    requires EndsInBreak(before) && SameLast(before, after) && |before| < UINT_MODULUS
    ensures DiffOf(before, after).Edit?
    ensures var e := DiffOf(before, after).edit;
            var s, t := Resolved(before, e.range.start), Resolved(before, e.range.end);
      && LastAgreement(before, after, s) && s <= t < |before|
      && before[..s] + e.newText + before[t..] == after
      && (s < t && e.newText != "" ==> before[t - 1] != e.newText[|e.newText| - 1])
  {
    hide OffsetOf, PositionOf, Prefix, Suffix, EditStart, LastAgreement, ToUint;
    var s := EditStart(before, after);
    var n := Suffix(after, before, s);
    EditAt(before, after);
    SameTail(before, after, s, n);
    StartAgrees(before, after);
    EndDiffers(before, after, s);
  }

  /** The offsets that the edit's positions stand for, and its text. */
  lemma EditAt(before: Text, after: Text)
    requires EndsInBreak(before) && SameLast(before, after) && |before| < UINT_MODULUS
    ensures DiffOf(before, after).Edit?
    ensures var e, s := DiffOf(before, after).edit, EditStart(before, after);
            var n := Suffix(after, before, s);
            var t, a := EditEnd(before, n), EditEnd(after, n);
      && Resolved(before, e.range.start) == s <= t < |before| && Resolved(before, e.range.end) == t
      && s <= a < |after| && e.newText == after[s..a] && before[..s] + after[s..a] + before[t..] == after
  {
    hide OffsetOf, PositionOf, Prefix, Suffix, EditStart, ToUint;
    OffsetsRestore(before, after);
    var s := EditStart(before, after);
    OffsetRoundTrips(before, s);
    OffsetRoundTrips(before, EditEnd(before, Suffix(after, before, s)));
  }

  lemma EndDiffers(before: Text, after: Text, s: nat)
    ensures var n := Suffix(after, before, s);
      n < |after| - s && n < |before| - s ==> before[|before| - n - 1] != after[s..|after| - n][|after| - n - 1 - s]
  {
  }

  lemma StartAgrees(before: Text, after: Text)
    ensures LastAgreement(before, after, EditStart(before, after))
  {
    var n := Prefix(after, before);
    if n > 0 {
      assert forall i :: 0 <= i < n ==> after[i] == after[..n][i] && before[i] == before[..n][i];
    }
  }
}
