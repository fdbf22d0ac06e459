/** The scopes of a type-check block while it is generated, how they are flattened,
    and which runs leave a faithful source map. */
module TcbScopes {
  import opened Options
  import opened Texts
  import opened TcbMap

  datatype Scope = Scope(built: Built, parent: Option<nat>)

  /** Scope 0 is the root.  `next` is the next identifier for a part. */
  datatype State = State(scopes: seq<Scope>, current: nat, next: nat)

  const START := State([Scope(NOTHING, None)], 0, 0)

  /** What a generator does to the block.  `root` says that the root scope is meant,
      whichever scope is open. */
  datatype Op =
    | Write(root: bool, text: Text, pug: PugSpan?)
    | WriteStatement(root: bool, parts: seq<Part>)
    | Open(text: Text, pug: PugSpan?)
    | Close
    | Insert(scope: nat, parts: seq<Part>, after: nat)

  // ----- soundness of a state -----

  predicate PartSound(st: State, j: nat, p: Part) {
    if p.scope.Some? then
      j < p.scope.value < |st.scopes| && st.scopes[p.scope.value].parent == Some(j) && p.text == ""
    else Timed(p) && Span(p) >= |p.text|
  }

  predicate ScopeSound(st: State, j: nat)
    requires j < |st.scopes|
  {
    var b := st.scopes[j].built;
    && (forall i {:trigger b.parts[i]} :: 0 <= i < |b.parts| ==> PartSound(st, j, b.parts[i]))
    && (b.parts != [] ==> b.sb >= |b.parts[|b.parts| - 1].text|)
    && (j > 0 ==>
          && st.scopes[j].parent.Some? && st.scopes[j].parent.value < j
          && st.scopes[st.scopes[j].parent.value].built.parts != [])
  }

  predicate LastEnds(b: Built) {
    b.parts != [] ==> b.parts[|b.parts| - 1].end.Some?
  }

  predicate Sound(st: State) {
    && st.current < |st.scopes| && LastEnds(st.scopes[st.current].built) && st.scopes[0].parent == None
    && forall j {:trigger ScopeSound(st, j)} :: 0 <= j < |st.scopes| ==> ScopeSound(st, j)
  }

  /** A statement that can be copied: what AddText and AddStatement build. */
  predicate Copyable(parts: seq<Part>) {
    forall i :: 0 <= i < |parts| ==> Timed(parts[i]) && Span(parts[i]) >= |parts[i].text| && parts[i].scope == None
  }

  // ----- steps -----

  function SetBuilt(st: State, j: nat, b: Built, used: nat): State
    requires j < |st.scopes|
  {
    st.(scopes := st.scopes[j := st.scopes[j].(built := b)], next := st.next + used)
  }

  function Target(st: State, root: bool): nat {
    if root then 0 else st.current
  }

  /** The rest of `EndScope`: the parent becomes current and closes its last part. */
  function Leave(st: State): Option<State>
    requires st.current < |st.scopes|
  {
    var parent := st.scopes[st.current].parent;
    if parent.Some? && parent.value < |st.scopes| && st.scopes[parent.value].built.parts != [] then
      Some(SetBuilt(st, parent.value, CloseScopePart(st.scopes[parent.value].built), 0).(current := parent.value))
    else None
  }

  function Braced(st: State): State
    requires st.current < |st.scopes|
  {
    SetBuilt(st, st.current, AddText(st.scopes[st.current].built, st.next, "}\n", null), 1)
  }

  /** None is a nil dereference: closing the root scope. */
  function Step(st: State, op: Op): Option<State>
    requires Sound(st)
    requires op.WriteStatement? || op.Insert? ==> Copyable(op.parts)
  {
    match op
    case Write(root, text, pug) =>
      var j := Target(st, root);
      Some(SetBuilt(st, j, AddText(st.scopes[j].built, st.next, text, pug), 1))
    case WriteStatement(root, parts) =>
      var j := Target(st, root);
      Some(SetBuilt(st, j, AddStatement(st.scopes[j].built, parts, st.next), |parts|))
    case Open(text, pug) =>
      var n := |st.scopes|;
      var outer := st.scopes[st.current].(built := AddScopePart(st.scopes[st.current].built, n, st.next));
      var inner := Scope(AddText(NOTHING, st.next + 1, text, pug), Some(st.current));
      Some(State(st.scopes[st.current := outer] + [inner], n, st.next + 2))
    case Close =>
      Leave(Braced(st))
    case Insert(k, parts, after) =>
      if 0 < k < |st.scopes| && IndexOf(st.scopes[k].built.parts, after) < |st.scopes[k].built.parts| then
        Some(SetBuilt(st, k, Splice(st.scopes[k].built, parts, after, st.next), |parts|))
      else Some(st)
  }

  // ----- steps keep soundness -----

  /** One scope's parts changed, to sound parts. */
  lemma BuiltSound(st: State, j: nat, b: Built, used: nat)
    requires Sound(st) && j < |st.scopes|
    requires forall i {:trigger b.parts[i]} :: 0 <= i < |b.parts| ==> PartSound(st, j, b.parts[i])
    requires b.parts != [] ==> b.sb >= |b.parts[|b.parts| - 1].text|
    requires j == st.current ==> LastEnds(b)
    requires st.scopes[j].built.parts != [] ==> b.parts != []
    ensures Sound(SetBuilt(st, j, b, used))
  {
    var r := SetBuilt(st, j, b, used);
    forall k | 0 <= k < |r.scopes|
      ensures ScopeSound(r, k)
    {
      assert ScopeSound(st, k);
      forall i | 0 <= i < |r.scopes[k].built.parts|
        ensures PartSound(r, k, r.scopes[k].built.parts[i])
      {
        assert PartSound(st, k, r.scopes[k].built.parts[i]);
      }
    }
  }

  lemma CopiesSound(st: State, j: nat, parts: seq<Part>, id: nat)
    requires Sound(st) && j < |st.scopes| && Copyable(parts)
    ensures Sound(SetBuilt(st, j, AddStatement(st.scopes[j].built, parts, id), |parts|))
  {
    hide AddStatement, Sound;
    var b := st.scopes[j].built;
    var r := AddStatement(b, parts, id);
    SoundScope(st, j);
    AddStatementShape(b, parts, id);
    BuilderCovers(b, parts, id);
    forall i | 0 <= i < |r.parts|
      ensures PartSound(st, j, r.parts[i])
    {
      if i < |b.parts| {
        assert r.parts[..|b.parts|][i] == b.parts[i];
        assert PartSound(st, j, b.parts[i]);
      } else {
        assert IsCopy(parts[i - |b.parts|], r.parts[i]);
      }
    }
    BuiltSound(st, j, r, |parts|);
  }

  lemma SoundScope(st: State, j: nat)
    requires Sound(st) && j < |st.scopes|
    ensures ScopeSound(st, j) && (j == st.current ==> LastEnds(st.scopes[j].built))
  {
  }

  /** The builder knows the text of the last part; what was open stays so. */
  lemma BuilderCovers(b: Built, parts: seq<Part>, id: nat)
    requires AllTimed(parts) && (b.parts != [] ==> b.sb >= |b.parts[|b.parts| - 1].text|)
    ensures var r := AddStatement(b, parts, id);
            && (r.parts != [] ==> r.sb >= |r.parts[|r.parts| - 1].text|)
            && (LastEnds(b) ==> LastEnds(r))
  {
  }

  lemma SplicedParts(st: State, k: nat, old_: seq<Part>, i: nat, parts: seq<Part>, more: nat)
    requires i < |old_| && Copyable(parts)
    requires forall x {:trigger old_[x]} :: 0 <= x < |old_| ==> PartSound(st, k, old_[x])
    ensures var r := old_[..i + 1] + parts + ShiftAll(old_[i + 1..], more);
            forall x {:trigger r[x]} :: 0 <= x < |r| ==> PartSound(st, k, r[x])
  {
    var tail := ShiftAll(old_[i + 1..], more);
    forall x | 0 <= x < |tail|
      ensures PartSound(st, k, tail[x])
    {
      assert PartSound(st, k, old_[i + 1 + x]);
    }
  }

  lemma SplicedLast(old_: seq<Part>, i: nat, parts: seq<Part>, more: nat)
    requires i + 1 < |old_|
    ensures var r := old_[..i + 1] + parts + ShiftAll(old_[i + 1..], more);
            r[|r| - 1] == ShiftPart(old_[|old_| - 1], more)
  {
    assert old_[i + 1..][|old_| - i - 2] == old_[|old_| - 1];
  }

  /** A statement spliced in before some part keeps its scope sound. */
  lemma InnerSpliceSound(st: State, k: nat, parts: seq<Part>, after: nat, id: nat)
    requires Sound(st) && k < |st.scopes| && Copyable(parts)
    requires IndexOf(st.scopes[k].built.parts, after) + 1 < |st.scopes[k].built.parts|
    ensures Sound(SetBuilt(st, k, Splice(st.scopes[k].built, parts, after, id), |parts|))
  {
    hide Sound, AddStatement, PartSound, IndexOf, ShiftAll, TotalSpan, LastEnds;
    var b := st.scopes[k].built;
    var i, more := IndexOf(b.parts, after), TotalSpan(parts);
    SoundScope(st, k);
    SplicedParts(st, k, b.parts, i, parts, more);
    SplicedLast(b.parts, i, parts, more);
    var r := Splice(b, parts, after, id);
    assert LastEnds(b) ==> LastEnds(r) by {
      EndsAlike(b, r, more);
    }
    BuiltSound(st, k, r, |parts|);
  }

  lemma EndsAlike(b: Built, r: Built, more: nat)
    requires b.parts != [] && r.parts != [] && r.parts[|r.parts| - 1] == ShiftPart(b.parts[|b.parts| - 1], more)
    ensures LastEnds(b) ==> LastEnds(r)
  {
  }

  lemma SpliceSound(st: State, k: nat, parts: seq<Part>, after: nat, id: nat)
    requires Sound(st) && k < |st.scopes| && Copyable(parts)
    ensures Sound(SetBuilt(st, k, Splice(st.scopes[k].built, parts, after, id), |parts|))
  {
    hide Sound, AddStatement, PartSound, ShiftAll, TotalSpan;
    var b := st.scopes[k].built;
    var i := IndexOf(b.parts, after);
    SoundScope(st, k);
    if i + 1 < |b.parts| {
      InnerSpliceSound(st, k, parts, after, id);
    } else if i + 1 == |b.parts| {
      CopiesSound(st, k, parts, id);
    } else {
      BuiltSound(st, k, b, |parts|);
    }
  }

  lemma WriteSound(st: State, j: nat, text: Text, pug: PugSpan?)
    requires Sound(st) && j < |st.scopes|
    ensures Sound(SetBuilt(st, j, AddText(st.scopes[j].built, st.next, text, pug), 1))
  {
    hide Sound;
    SoundScope(st, j);
    var b := st.scopes[j].built;
    var r := AddText(b, st.next, text, pug);
    forall i | 0 <= i < |r.parts|
      ensures PartSound(st, j, r.parts[i])
    {
      assert i < |b.parts| ==> PartSound(st, j, b.parts[i]);
    }
    BuiltSound(st, j, r, 1);
  }

  lemma OpenSound(st: State, text: Text, pug: PugSpan?)
    requires Sound(st)
    ensures Sound(Step(st, Open(text, pug)).value)
  {
    var r := Step(st, Open(text, pug)).value;
    var n := |st.scopes|;
    forall j | 0 <= j < |r.scopes|
      ensures ScopeSound(r, j)
    {
      if j < n {
        assert ScopeSound(st, j);
        forall i | 0 <= i < |r.scopes[j].built.parts|
          ensures PartSound(r, j, r.scopes[j].built.parts[i])
        {
          assert i < |st.scopes[j].built.parts| ==> PartSound(st, j, st.scopes[j].built.parts[i]);
        }
      }
    }
  }

  lemma BracedSound(st: State)
    requires Sound(st)
    ensures Sound(Braced(st)) && Step(st, Close) == Leave(Braced(st))
    ensures Leave(Braced(st)).None? <==> st.current == 0
  {
    SoundScope(st, st.current);
    WriteSound(st, st.current, "}\n", null);
  }

  lemma LeaveSound(st: State)
    requires Sound(st) && Leave(st).Some?
    ensures Sound(Leave(st).value)
  {
    TargetExists(st, false);
    var p := st.scopes[st.current].parent.value;
    SoundScope(st, p);
    var b := st.scopes[p].built;
    var r := CloseScopePart(b);
    forall i | 0 <= i < |r.parts|
      ensures PartSound(st, p, r.parts[i])
    {
      assert PartSound(st, p, b.parts[i]);
    }
    BuiltSound(st, p, r, 0);
    Moved(SetBuilt(st, p, r, 0), p);
  }

  lemma Moved(st: State, c: nat)
    requires Sound(st) && c < |st.scopes| && LastEnds(st.scopes[c].built)
    ensures Sound(st.(current := c))
  {
    forall j | 0 <= j < |st.scopes|
      ensures ScopeSound(st.(current := c), j)
    {
      assert ScopeSound(st, j);
      assert forall i {:trigger st.scopes[j].built.parts[i]} :: 0 <= i < |st.scopes[j].built.parts| ==>
          PartSound(st, j, st.scopes[j].built.parts[i]);
    }
  }

  /** Every step that does not panic keeps the tree of scopes sound, and only closing
      the root panics. */
  lemma StepSound(st: State, op: Op)
    requires Sound(st) && (op.WriteStatement? || op.Insert? ==> Copyable(op.parts))
    ensures Step(st, op).Some? ==> Sound(Step(st, op).value)
    ensures Step(st, op).None? <==> op.Close? && st.current == 0
  {
    hide Sound, AddStatement, Splice, SetBuilt, AddText;
    match op
    case Write(root, text, pug) =>
      TargetExists(st, root);
      WriteSound(st, Target(st, root), text, pug);
    case WriteStatement(root, parts) =>
      TargetExists(st, root);
      CopiesSound(st, Target(st, root), parts, st.next);
    case Open(text, pug) => OpenSound(st, text, pug);
    case Close =>
      TargetExists(st, false);
      BracedSound(st);
      if Step(st, op).Some? {
        LeaveSound(Braced(st));
      }
    case Insert(k, parts, after) =>
      if Step(st, op) != Some(st) { SpliceSound(st, k, parts, after, st.next); }
  }

  lemma TargetExists(st: State, root: bool)
    requires Sound(st)
    ensures Target(st, root) < |st.scopes|
  {
  }

  // ----- flattening -----

  datatype Flat = Flat(built: Built, next: nat)

  /** `Scope.ToStatement`: inner scopes are copied in, own parts are taken as they are,
      old offsets included. */
  function ToStatement(st: State, j: nat, id: nat): (r: Flat)
    requires Sound(st) && j < |st.scopes|
    ensures Copyable(r.built.parts)
    decreases |st.scopes| - j, |st.scopes[j].built.parts| + 1
  {
    FirstParts(st, j, |st.scopes[j].built.parts|, id)
  }

  function FirstParts(st: State, j: nat, n: nat, id: nat): (r: Flat)
    requires Sound(st) && j < |st.scopes| && n <= |st.scopes[j].built.parts|
    ensures Copyable(r.built.parts)
    decreases |st.scopes| - j, n
  {
    if n == 0 then Flat(NOTHING, id)
    else
      assert ScopeSound(st, j);
      var p := st.scopes[j].built.parts[n - 1];
      assert PartSound(st, j, p);
      var f := FirstParts(st, j, n - 1, id);
      if p.scope.Some? then
        var inner := ToStatement(st, p.scope.value, f.next);
        CopiesCopyable(f.built, inner.built.parts, inner.next);
        Flat(AddStatement(f.built, inner.built.parts, inner.next), inner.next + |inner.built.parts|)
      else Flat(AddPart(f.built, p), f.next)
  }

  lemma CopiesCopyable(b: Built, parts: seq<Part>, id: nat)
    requires Copyable(b.parts) && Copyable(parts)
    ensures Copyable(AddStatement(b, parts, id).parts)
  {
    AddStatementShape(b, parts, id);
    var r := AddStatement(b, parts, id);
    forall i | 0 <= i < |r.parts|
      ensures Timed(r.parts[i]) && Span(r.parts[i]) >= |r.parts[i].text| && r.parts[i].scope == None
    {
      if i < |b.parts| {
        assert r.parts[..|b.parts|][i] == b.parts[i];
      } else {
        assert IsCopy(parts[i - |b.parts|], r.parts[i]);
      }
    }
  }

  /** The text of a scope, inner scopes in their places. */
  function ScopeText(st: State, j: nat, n: nat): Text
    requires Sound(st) && j < |st.scopes| && n <= |st.scopes[j].built.parts|
    decreases |st.scopes| - j, n
  {
    if n == 0 then ""
    else
      assert ScopeSound(st, j);
      var p := st.scopes[j].built.parts[n - 1];
      assert PartSound(st, j, p);
      ScopeText(st, j, n - 1) +
      if p.scope.Some? then ScopeText(st, p.scope.value, |st.scopes[p.scope.value].built.parts|) else p.text
  }

  lemma {:induction false} RenderStatement(b: Built, parts: seq<Part>, id: nat)
    requires AllTimed(parts)
    ensures Render(AddStatement(b, parts, id).parts) == Render(b.parts) + Render(parts)
    decreases |parts|
  {
    if parts != [] {
      hide Render;
      var front, last := parts[..|parts| - 1], parts[|parts| - 1];
      RenderStatement(b, front, id);
      var before := AddStatement(b, front, id);
      RenderPart(before, CopyAt(last, id + |parts| - 1, before.sb));
      RenderLast(parts);
    } else {
      assert Render(b.parts) + "" == Render(b.parts);
    }
  }

  lemma RenderLast(parts: seq<Part>)
    requires parts != []
    ensures Render(parts) == Render(parts[..|parts| - 1]) + parts[|parts| - 1].text
  {
  }

  lemma RenderPart(b: Built, p: Part)
    ensures Render(AddPart(b, p).parts) == Render(b.parts) + p.text
  {
    assert (b.parts + [p])[..|b.parts|] == b.parts;
  }

  /** Flattening keeps the text. */
  lemma {:induction false} FlattenKeepsText(st: State, j: nat, n: nat, id: nat)
    requires Sound(st) && j < |st.scopes| && n <= |st.scopes[j].built.parts|
    ensures Render(FirstParts(st, j, n, id).built.parts) == ScopeText(st, j, n)
    decreases |st.scopes| - j, n
  {
    hide Sound, AddStatement, Render, AddPart;
    if n == 0 {
      assert Render([]) == "" by { RenderLength([]); }
    } else {
      SoundScope(st, j);
      var p := st.scopes[j].built.parts[n - 1];
      assert PartSound(st, j, p);
      FlattenKeepsText(st, j, n - 1, id);
      var f := FirstParts(st, j, n - 1, id);
      if p.scope.Some? {
        var c := p.scope.value;
        FlattenKeepsText(st, c, |st.scopes[c].built.parts|, f.next);
        var inner := ToStatement(st, c, f.next);
        RenderStatement(f.built, inner.built.parts, inner.next);
      } else {
        RenderPart(f.built, p);
      }
    }
  }

  /** `Tcb.ToString`: everything is copied once more, after the imports and the
      declarations of directives and pipes. */
  function Block(st: State, imports: Text, directives: seq<Part>, pipes: seq<Part>): (r: Built)
    requires Sound(st) && Copyable(directives) && Copyable(pipes)
    ensures Copyable(r.parts)
  {
    hide AddStatement;
    var flat := ToStatement(st, 0, st.next);
    CopiesCopyable(Head(imports, directives, pipes, flat.next), flat.built.parts,
        flat.next + 1 + |directives| + |pipes|);
    AddStatement(Head(imports, directives, pipes, flat.next), flat.built.parts, flat.next + 1 + |directives| + |pipes|)
  }

  function Head(imports: Text, directives: seq<Part>, pipes: seq<Part>, id: nat): (r: Built)
    requires Copyable(directives) && Copyable(pipes)
    ensures Exact(r) && Copyable(r.parts)
  {
    hide AddStatement;
    ExactPart(NOTHING, Part(id, imports, 0, Some(|imports|), None, null));
    var b := AddText(NOTHING, id, imports, null);
    AddStatementShape(b, directives, id + 1);
    CopiesCopyable(b, directives, id + 1);
    var d := AddStatement(b, directives, id + 1);
    AddStatementShape(d, pipes, id + 1 + |directives|);
    CopiesCopyable(d, pipes, id + 1 + |directives|);
    AddStatement(d, pipes, id + 1 + |directives|)
  }

  /** Whatever run built the scopes, in the finished block every part starts where the
      texts before it end, no part is shorter than its text, and the text is that of
      the scopes.  Offsets are traced to the right part if and only if no overlong
      part is followed by text. */
  lemma BlockIsExact(st: State, imports: Text, directives: seq<Part>, pipes: seq<Part>)
    requires Sound(st) && Copyable(directives) && Copyable(pipes)
    ensures var r := Block(st, imports, directives, pipes);
            && Exact(r) && AtLeastText(r.parts)
            && Render(r.parts) == Render(Head(imports, directives, pipes, ToStatement(st, 0, st.next).next).parts)
                                  + ScopeText(st, 0, |st.scopes[0].built.parts|)
            && (Faithful(r.parts) <==> forall i :: 0 <= i < |r.parts| && Overlong(r.parts[i]) ==>
                  TextLength(r.parts[..i + 1]) == r.sb)
  {
    hide AddStatement, Sound, Render, Faithful, ScopeText;
    TargetExists(st, true);
    var flat := ToStatement(st, 0, st.next);
    var head := Head(imports, directives, pipes, flat.next);
    var id := flat.next + 1 + |directives| + |pipes|;
    AddStatementShape(head, flat.built.parts, id);
    CopiesCopyable(head, flat.built.parts, id);
    RenderStatement(head, flat.built.parts, id);
    FlattenKeepsText(st, 0, |st.scopes[0].built.parts|, st.next);
    FaithfulExactlyWhen(Block(st, imports, directives, pipes));
  }

  // ----- runs -----

  predicate Tight(p: Part) {
    Timed(p) && Span(p) == |p.text|
  }

  /** Own parts are as long as their text. */
  predicate TightParts(parts: seq<Part>) {
    forall i {:trigger parts[i]} :: 0 <= i < |parts| ==> parts[i].scope.Some? || Tight(parts[i])
  }

  predicate AllTight(st: State) {
    forall j {:trigger st.scopes[j]} :: 0 <= j < |st.scopes| ==> TightParts(st.scopes[j].built.parts)
  }

  /** The scopes around scope `c`, the root apart, end with the part of the scope that
      is open in them. */
  predicate OpenPath(st: State, c: nat)
    requires Sound(st) && c < |st.scopes|
    decreases c
  {
    assert ScopeSound(st, c);
    c == 0 ||
    var p := st.scopes[c].parent.value;
    && (p == 0 || (var parts := st.scopes[p].built.parts; parts != [] && parts[|parts| - 1].scope == Some(c)))
    && OpenPath(st, p)
  }

  /** Scope `k` is one of the scopes around scope `c`. */
  predicate Around(st: State, c: nat, k: nat)
    requires Sound(st) && c < |st.scopes|
    decreases c
  {
    assert ScopeSound(st, c);
    c != 0 && (st.scopes[c].parent.value == k || Around(st, st.scopes[c].parent.value, k))
  }

  /** What happens between the braces of a generated function: the scope of the
      function stays open, and nothing is inserted behind a scope that is still open. */
  predicate Allowed(st: State, op: Op)
    requires Sound(st)
  {
    && (op.WriteStatement? || op.Insert? ==> Copyable(op.parts) && TightParts(op.parts))
    && (op.Close? ==> st.scopes[st.current].parent != Some(0))
    && (op.Insert? && op.scope < |st.scopes| && Around(st, st.current, op.scope) ==>
          IndexOf(st.scopes[op.scope].built.parts, op.after) + 1 != |st.scopes[op.scope].built.parts|)
  }

  /** The generator inside the function's scope. */
  predicate Inside(st: State) {
    Sound(st) && st.current != 0 && AllTight(st) && OpenPath(st, st.current)
  }

  lemma AddStatementTight(b: Built, parts: seq<Part>, id: nat)
    requires Copyable(parts) && TightParts(b.parts) && TightParts(parts)
    ensures TightParts(AddStatement(b, parts, id).parts)
  {
    hide AddStatement;
    AddStatementShape(b, parts, id);
    var r := AddStatement(b, parts, id);
    forall i | 0 <= i < |r.parts|
      ensures r.parts[i].scope.Some? || Tight(r.parts[i])
    {
      if i < |b.parts| {
        assert r.parts[..|b.parts|][i] == b.parts[i];
      } else {
        assert IsCopy(parts[i - |b.parts|], r.parts[i]);
      }
    }
  }

  lemma SpliceTight(b: Built, parts: seq<Part>, after: nat, id: nat)
    requires Copyable(parts) && TightParts(b.parts) && TightParts(parts)
    ensures TightParts(Splice(b, parts, after, id).parts)
  {
    hide AddStatement;
    var k := IndexOf(b.parts, after);
    if k + 1 >= |b.parts| {
      AddStatementTight(b, parts, id);
    } else {
      var tail := ShiftAll(b.parts[k + 1..], TotalSpan(parts));
      forall i | 0 <= i < |tail|
        ensures tail[i].scope.Some? || Tight(tail[i])
      {
        assert tail[i] == ShiftPart(b.parts[k + 1 + i], TotalSpan(parts));
      }
    }
  }

  /** A scope's parts changed, but not their end unless the scope is the open one. */
  lemma PathKept(st: State, r: State, c: nat)
    requires Sound(st) && Sound(r) && c < |st.scopes| <= |r.scopes| && OpenPath(st, c)
    requires forall j :: 0 <= j < |st.scopes| ==> r.scopes[j].parent == st.scopes[j].parent
    requires forall j {:trigger Around(st, c, j)} :: 0 < j < |st.scopes| && Around(st, c, j) ==>
              SameEnd(st.scopes[j].built.parts, r.scopes[j].built.parts)
    ensures OpenPath(r, c)
    decreases c
  {
    if c != 0 {
      assert ScopeSound(st, c);
      var p := st.scopes[c].parent.value;
      assert Around(st, c, p);
      forall j | 0 < j < |st.scopes| && Around(st, p, j)
        ensures SameEnd(st.scopes[j].built.parts, r.scopes[j].built.parts)
      {
        assert Around(st, c, j);
      }
      PathKept(st, r, p);
    }
  }

  predicate SameEnd(a: seq<Part>, b: seq<Part>) {
    a != [] ==> b != [] && a[|a| - 1].scope == b[|b| - 1].scope
  }

  lemma {:induction false} AroundBelow(st: State, c: nat, k: nat)
    requires Sound(st) && c < |st.scopes| && Around(st, c, k)
    ensures k < c
    decreases c
  {
    assert ScopeSound(st, c);
    if st.scopes[c].parent.value != k {
      AroundBelow(st, st.scopes[c].parent.value, k);
    }
  }

  /** Parts added to the root or to the open scope. */
  lemma BuiltInside(st: State, j: nat, b: Built, used: nat)
    requires Inside(st) && (j == 0 || j == st.current) && TightParts(b.parts) && Sound(SetBuilt(st, j, b, used))
    ensures Inside(SetBuilt(st, j, b, used))
  {
    hide Sound;
    TargetExists(st, false);
    forall k | 0 < k < |st.scopes| && Around(st, st.current, k)
      ensures SameEnd(st.scopes[k].built.parts, SetBuilt(st, j, b, used).scopes[k].built.parts)
    {
      AroundBelow(st, st.current, k);
    }
    PathKept(st, SetBuilt(st, j, b, used), st.current);
  }

  lemma SpliceKeepsEnd(b: Built, parts: seq<Part>, after: nat, id: nat)
    requires AllTimed(parts) && IndexOf(b.parts, after) + 1 < |b.parts|
    ensures SameEnd(b.parts, Splice(b, parts, after, id).parts)
  {
    var i := IndexOf(b.parts, after);
    assert b.parts[i + 1..][|b.parts| - i - 2] == b.parts[|b.parts| - 1];
  }

  lemma InsertInside(st: State, k: nat, parts: seq<Part>, after: nat)
    requires Inside(st) && Allowed(st, Insert(k, parts, after))
    ensures Step(st, Insert(k, parts, after)).Some? && Inside(Step(st, Insert(k, parts, after)).value)
  {
    hide Sound, AddStatement, Splice, Around, OpenPath, SameEnd, TightParts;
    TargetExists(st, false);
    StepSound(st, Insert(k, parts, after));
    var r := Step(st, Insert(k, parts, after)).value;
    if r != st {
      var b := st.scopes[k].built;
      SpliceTight(b, parts, after, st.next);
      forall j | 0 < j < |st.scopes| && Around(st, st.current, j)
        ensures SameEnd(st.scopes[j].built.parts, r.scopes[j].built.parts)
      {
        if j == k {
          SpliceKeepsEnd(b, parts, after, st.next);
        } else {
          SameEndAlways(st.scopes[j].built.parts);
        }
      }
      PathKept(st, r, st.current);
    }
  }

  lemma SameEndAlways(parts: seq<Part>)
    ensures SameEnd(parts, parts)
  {
  }

  lemma OpenInside(st: State, text: Text, pug: PugSpan?)
    requires Sound(st) && AllTight(st) && OpenPath(st, st.current)
    ensures Inside(Step(st, Open(text, pug)).value)
  {
    hide Sound;
    TargetExists(st, false);
    StepSound(st, Open(text, pug));
    var r := Step(st, Open(text, pug)).value;
    forall k | 0 < k < |st.scopes| && Around(st, st.current, k)
      ensures SameEnd(st.scopes[k].built.parts, r.scopes[k].built.parts)
    {
      AroundBelow(st, st.current, k);
    }
    PathKept(st, r, st.current);
  }

  lemma CloseInside(st: State)
    requires Inside(st) && st.scopes[st.current].parent != Some(0)
    ensures Step(st, Close).Some? && Inside(Step(st, Close).value)
  {
    hide Sound;
    BracedSound(st);
    TargetExists(st, false);
    SoundScope(st, st.current);
    var s := Braced(st);
    BuiltInside(st, st.current, s.scopes[st.current].built, 1);
    var p := s.scopes[s.current].parent.value;
    StepSound(st, Close);
    var r := Leave(s).value;
    assert OpenPath(s, p);
    forall k | 0 < k < |s.scopes| && Around(s, p, k)
      ensures SameEnd(s.scopes[k].built.parts, r.scopes[k].built.parts)
    {
      AroundBelow(s, p, k);
    }
    PathKept(s, r, p);
  }

  /** Every allowed step succeeds and stays inside. */
  lemma StepInside(st: State, op: Op)
    requires Inside(st) && Allowed(st, op)
    ensures Step(st, op).Some? && Inside(Step(st, op).value)
  {
    hide Sound, AddStatement, OpenPath, Around, AllTight, SetBuilt;
    StepSound(st, op);
    TargetExists(st, true);
    TargetExists(st, false);
    match op
    case Write(root, text, pug) =>
      var j := Target(st, root);
      WriteTight(st, j, text, pug);
      BuiltInside(st, j, AddText(st.scopes[j].built, st.next, text, pug), 1);
    case WriteStatement(root, parts) =>
      var j := Target(st, root);
      StatementTight(st, j, parts);
      BuiltInside(st, j, AddStatement(st.scopes[j].built, parts, st.next), |parts|);
    case Open(text, pug) => OpenInside(st, text, pug);
    case Close => CloseInside(st);
    case Insert(k, parts, after) => InsertInside(st, k, parts, after);
  }

  lemma WriteTight(st: State, j: nat, text: Text, pug: PugSpan?)
    requires AllTight(st) && j < |st.scopes|
    ensures TightParts(AddText(st.scopes[j].built, st.next, text, pug).parts)
  {
  }

  lemma StatementTight(st: State, j: nat, parts: seq<Part>)
    requires AllTight(st) && j < |st.scopes| && Copyable(parts) && TightParts(parts)
    ensures TightParts(AddStatement(st.scopes[j].built, parts, st.next).parts)
  {
    AddStatementTight(st.scopes[j].built, parts, st.next);
  }

  // ----- generating a template's function -----

  /** The head of the function, written to the root scope. */
  function Preamble(texts: seq<Text>): (st: State)
    ensures Sound(st) && AllTight(st) && st.current == 0
    decreases |texts|
  {
    if texts == [] then
      assert ScopeSound(START, 0);
      START
    else
      var st := Preamble(texts[..|texts| - 1]);
      var op := Write(false, texts[|texts| - 1], null);
      StepSound(st, op);
      WriteTight(st, 0, texts[|texts| - 1], null);
      Step(st, op).value
  }

  /** `ops` lead from `st` to `r` inside the function's scope. */
  predicate Generates(st: State, ops: seq<Op>, r: State)
    requires Inside(st)
    decreases |ops|
  {
    if ops == [] then r == st
    else
      Allowed(st, ops[0]) &&
      (StepInside(st, ops[0]);
       Generates(Step(st, ops[0]).value, ops[1..], r))
  }

  lemma {:induction false} GeneratesInside(st: State, ops: seq<Op>, r: State)
    requires Inside(st) && Generates(st, ops, r)
    ensures Inside(r)
    decreases |ops|
  {
    hide Step, Sound, AllTight, OpenPath;
    if ops != [] {
      StepInside(st, ops[0]);
      GeneratesInside(Step(st, ops[0]).value, ops[1..], r);
    }
  }

  /** The first `n` parts of scope `j` are flattened into parts as long as their text. */
  lemma {:induction false} FlattenTight(st: State, j: nat, n: nat, id: nat)
    requires Sound(st) && j < |st.scopes| && n <= |st.scopes[j].built.parts|
    requires forall k {:trigger st.scopes[k]} :: j < k < |st.scopes| ==> TightParts(st.scopes[k].built.parts)
    requires TightParts(st.scopes[j].built.parts[..n])
    ensures TightParts(FirstParts(st, j, n, id).built.parts)
    decreases |st.scopes| - j, n
  {
    hide Sound, AddStatement;
    if n > 0 {
      SoundScope(st, j);
      var parts := st.scopes[j].built.parts;
      var p := parts[n - 1];
      assert PartSound(st, j, p);
      assert parts[..n][..n - 1] == parts[..n - 1] && parts[..n][n - 1] == p;
      FlattenTight(st, j, n - 1, id);
      var f := FirstParts(st, j, n - 1, id);
      if p.scope.Some? {
        var c := p.scope.value;
        var all := st.scopes[c].built.parts;
        assert all[..|all|] == all;
        FlattenTight(st, c, |all|, f.next);
        var inner := ToStatement(st, c, f.next);
        AddStatementTight(f.built, inner.built.parts, inner.next);
      }
    }
  }

  lemma TightButLastIsFaithful(b: Built)
    requires Exact(b) && Copyable(b.parts)
    requires forall i {:trigger b.parts[i]} :: 0 <= i < |b.parts| - 1 ==> Tight(b.parts[i])
    ensures Faithful(b.parts)
  {
    assert b.parts[..|b.parts|] == b.parts;
    FaithfulExactlyWhen(b);
  }

  /** Only the last part of the root may be overlong; nothing comes after it. */
  lemma RootEndIsLast(st: State, imports: Text, directives: seq<Part>, pipes: seq<Part>)
    requires Sound(st) && Copyable(directives) && Copyable(pipes) && TightParts(directives) && TightParts(pipes)
    requires forall k {:trigger st.scopes[k]} :: 0 < k < |st.scopes| ==> TightParts(st.scopes[k].built.parts)
    requires var root := st.scopes[0].built.parts; root != [] && TightParts(root[..|root| - 1])
    ensures Faithful(Block(st, imports, directives, pipes).parts)
  {
    hide AddStatement, Sound, Faithful, Head, ToStatement, Exact, Render, ScopeText, TextLength;
    TargetExists(st, true);
    var root := st.scopes[0].built.parts;
    var flat := ToStatement(st, 0, st.next);
    var head := Head(imports, directives, pipes, flat.next);
    HeadTight(imports, directives, pipes, flat.next);
    FlatTightBut(st, root, flat.built.parts);
    var r := Block(st, imports, directives, pipes);
    AddStatementShape(head, flat.built.parts, flat.next + 1 + |directives| + |pipes|);
    CopiesTightBut(head.parts, flat.built.parts, r.parts);
    TightButLastIsFaithful(r);
  }

  lemma CopiesTightBut(head: seq<Part>, flat: seq<Part>, r: seq<Part>)
    requires |r| == |head| + |flat| && r[..|head|] == head
    requires forall i {:trigger flat[i]} :: 0 <= i < |flat| ==> IsCopy(flat[i], r[|head| + i])
    requires forall i {:trigger head[i]} :: 0 <= i < |head| ==> Tight(head[i])
    requires forall i {:trigger flat[i]} :: 0 <= i < |flat| - 1 ==> Tight(flat[i])
    ensures forall i {:trigger r[i]} :: 0 <= i < |r| - 1 ==> Tight(r[i])
  {
    forall i | 0 <= i < |r| - 1
      ensures Tight(r[i])
    {
      if i < |head| {
        assert r[..|head|][i] == head[i];
      } else {
        assert IsCopy(flat[i - |head|], r[i]);
      }
    }
  }

  lemma FlatTightBut(st: State, root: seq<Part>, flat: seq<Part>)
    requires Sound(st) && root == st.scopes[0].built.parts && root != [] && TightParts(root[..|root| - 1])
    requires forall k {:trigger st.scopes[k]} :: 0 < k < |st.scopes| ==> TightParts(st.scopes[k].built.parts)
    requires flat == ToStatement(st, 0, st.next).built.parts
    ensures forall i {:trigger flat[i]} :: 0 <= i < |flat| - 1 ==> Tight(flat[i])
  {
    hide Sound, AddStatement;
    TargetExists(st, true);
    var n := |root|;
    if root[n - 1].scope.Some? {
      assert TightParts(root[..n]) by {
        assert forall i :: 0 <= i < n - 1 ==> root[i] == root[..n - 1][i];
      }
      FlattenTight(st, 0, n, st.next);
    } else {
      FlattenTight(st, 0, n - 1, st.next);
    }
  }

  lemma HeadTight(imports: Text, directives: seq<Part>, pipes: seq<Part>, id: nat)
    requires Copyable(directives) && Copyable(pipes) && TightParts(directives) && TightParts(pipes)
    ensures var r := Head(imports, directives, pipes, id);
            forall i {:trigger r.parts[i]} :: 0 <= i < |r.parts| ==> Tight(r.parts[i])
  {
    hide AddStatement;
    var b := AddText(NOTHING, id, imports, null);
    AddStatementTight(b, directives, id + 1);
    AddStatementTight(AddStatement(b, directives, id + 1), pipes, id + 1 + |directives|);
  }

  /** The function's head and its opening brace. */
  function Opened(texts: seq<Text>, brace: Text, pug: PugSpan?): (st: State)
    ensures Inside(st)
  {
    OpenInside(Preamble(texts), brace, pug);
    Step(Preamble(texts), Open(brace, pug)).value
  }

  /** Closing the function's scope spoils no part but the root's last. */
  lemma FunctionClosed(st: State)
    requires Inside(st) && st.scopes[st.current].parent == Some(0)
    ensures Step(st, Close).Some? && Sound(Step(st, Close).value)
    ensures var r := Step(st, Close).value;
            && (forall k {:trigger r.scopes[k]} :: 0 < k < |r.scopes| ==> TightParts(r.scopes[k].built.parts))
            && var root := r.scopes[0].built.parts; root != [] && TightParts(root[..|root| - 1])
  {
    hide Sound;
    StepSound(st, Close);
    BracedSound(st);
    TargetExists(st, false);
    var s := Braced(st);
    BuiltInside(st, st.current, s.scopes[st.current].built, 1);
    assert TightParts(s.scopes[0].built.parts);
  }

  /** The source map of a generated template.  Whatever is written, copied, opened,
      closed or inserted while the function's scope is open, also at the end of the
      root scope, every offset of the finished block is traced to exactly the part
      whose text holds it. */
  lemma TemplateIsFaithful(texts: seq<Text>, brace: Text, pug: PugSpan?, ops: seq<Op>, r: State,
                           imports: Text, directives: seq<Part>, pipes: seq<Part>)
    requires Generates(Opened(texts, brace, pug), ops, r) && Sound(r) && r.scopes[r.current].parent == Some(0)
    requires Copyable(directives) && Copyable(pipes) && TightParts(directives) && TightParts(pipes)
    ensures Step(r, Close).Some? && Sound(Step(r, Close).value)
    ensures Faithful(Block(Step(r, Close).value, imports, directives, pipes).parts)
  {
    hide Sound, Step, Block, Generates, AllTight, OpenPath, Opened, TightParts, Faithful;
    GeneratesInside(Opened(texts, brace, pug), ops, r);
    FunctionClosed(r);
    RootEndIsLast(Step(r, Close).value, imports, directives, pipes);
  }

  // ----- text after the function -----

  /** The root's last part is the scope just closed, or its text is all the builder of
      the root has heard of. */
  predicate EndsWell(root: Built) {
    root.parts != [] && (root.parts[|root.parts| - 1].scope.Some? || root.sb == |root.parts[|root.parts| - 1].text|)
  }

  /** The root after the function is closed and more text is written. */
  lemma RootAfterwards(st: State, text: Text)
    requires Inside(st) && st.scopes[st.current].parent == Some(0)
    ensures Step(st, Close).Some? && Sound(Step(st, Close).value)
    ensures var closed := Step(st, Close).value;
            var r := Step(closed, Write(false, text, null));
            && r.Some? && Sound(r.value)
            && (forall k {:trigger r.value.scopes[k]} :: 0 < k < |r.value.scopes| ==>
                  TightParts(r.value.scopes[k].built.parts))
            && r.value.scopes[0].built == AddText(closed.scopes[0].built, closed.next, text, null)
            && closed.scopes[0].built == CloseScopePart(st.scopes[0].built)
            && st.scopes[0].built.parts != [] && TightParts(st.scopes[0].built.parts)
  {
    hide Sound, TightParts, OpenPath;
    FunctionClosed(st);
    BracedSound(st);
    TargetExists(st, false);
    var closed := Step(st, Close).value;
    TargetExists(closed, false);
    StepSound(closed, Write(false, text, null));
    SoundScope(st, st.current);
  }

  /** An overlong part before the last part of the root leads lookups astray. */
  lemma OverlongBeforeLast(st: State, imports: Text, directives: seq<Part>, pipes: seq<Part>)
    requires Sound(st) && Copyable(directives) && Copyable(pipes)
    requires var root := st.scopes[0].built.parts;
             && |root| >= 2 && root[|root| - 2].scope.None? && root[|root| - 1].scope.None?
             && Overlong(root[|root| - 2]) && root[|root| - 1].text != ""
    ensures !Faithful(Block(st, imports, directives, pipes).parts)
  {
    hide AddStatement, Sound, Faithful, Head, ScopeText, Render;
    TargetExists(st, true);
    var root := st.scopes[0].built.parts;
    var n := |root|;
    var flat := ToStatement(st, 0, st.next).built.parts;
    var f := FirstParts(st, 0, n - 2, st.next).built.parts;
    assert FirstParts(st, 0, n - 1, st.next).built.parts == f + [root[n - 2]];
    assert FirstParts(st, 0, n, st.next).built.parts == f + [root[n - 2]] + [root[n - 1]];
    BlockEnd(st, imports, directives, pipes, flat);
  }

  lemma BlockEnd(st: State, imports: Text, directives: seq<Part>, pipes: seq<Part>, flat: seq<Part>)
    requires Sound(st) && Copyable(directives) && Copyable(pipes) && flat == ToStatement(st, 0, st.next).built.parts
    requires |flat| >= 2 && Overlong(flat[|flat| - 2]) && flat[|flat| - 1].text != ""
    ensures !Faithful(Block(st, imports, directives, pipes).parts)
  {
    hide AddStatement, Sound, Faithful, Head, ScopeText, Render, ToStatement, Exact, TextLength;
    TargetExists(st, true);
    var next := ToStatement(st, 0, st.next).next;
    var head := Head(imports, directives, pipes, next);
    var r := Block(st, imports, directives, pipes);
    AddStatementShape(head, flat, next + 1 + |directives| + |pipes|);
    var k := |flat|;
    assert IsCopy(flat[k - 2], r.parts[|head.parts| + (k - 2)]);
    assert IsCopy(flat[k - 1], r.parts[|head.parts| + (k - 1)]);
    EndSpoils(r);
  }

  lemma EndSpoils(b: Built)
    requires Exact(b) && Copyable(b.parts) && |b.parts| >= 2
    requires Overlong(b.parts[|b.parts| - 2]) && b.parts[|b.parts| - 1].text != ""
    ensures !Faithful(b.parts)
  {
    hide Faithful;
    var i := |b.parts| - 2;
    FaithfulExactlyWhen(b);
    assert Overlong(b.parts[i]) && TextLength(b.parts[..i + 1]) != b.sb;
  }

  /** Closing the function's scope closes whichever part the root then ends with.  If
      more text follows, the source map stays faithful if and only if that part is the
      function's scope, or no other text was written to the root. */
  lemma TextAfterFunction(st: State, text: Text, imports: Text, directives: seq<Part>, pipes: seq<Part>)
    requires Inside(st) && st.scopes[st.current].parent == Some(0) && text != ""
    requires Copyable(directives) && Copyable(pipes) && TightParts(directives) && TightParts(pipes)
    ensures Step(st, Close).Some? && Sound(Step(st, Close).value)
    ensures var r := Step(Step(st, Close).value, Write(false, text, null));
            r.Some? && Sound(r.value) &&
            (Faithful(Block(r.value, imports, directives, pipes).parts) <==> EndsWell(st.scopes[0].built))
  {
    hide Sound, Faithful, Block, Step, AllTight, OpenPath;
    RootAfterwards(st, text);
    var r := Step(Step(st, Close).value, Write(false, text, null)).value;
    TargetExists(st, true);
    TargetExists(r, true);
    var old_ := st.scopes[0].built;
    var root := r.scopes[0].built.parts;
    var n := |old_.parts|;
    assert root[..n] == CloseScopePart(old_).parts;
    SoundScope(st, 0);
    assert PartSound(st, 0, old_.parts[n - 1]);
    if EndsWell(old_) {
      assert TightParts(root[..n]);
      RootEndIsLast(r, imports, directives, pipes);
    } else {
      OverlongBeforeLast(r, imports, directives, pipes);
    }
  }
}
