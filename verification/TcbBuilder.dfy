/** Statements, scopes and the type-check block as the source builds them: in place. */
module TcbBuilder {
  import opened Options
  import opened Texts
  import V = TcbMap
  import opened TcbMap
  import S = TcbScopes
  import opened TcbScopes

  class Statement {
    var Parts: seq<Part>
    var sb: nat

    constructor ()
      ensures Value() == NOTHING
    {
      Parts, sb := [], 0;
    }

    ghost function Value(): Built
      reads this
    {
      Built(Parts, sb)
    }

    method AddPart(p: Part)
      modifies this
      ensures Value() == V.AddPart(old(Value()), p)
    {
      Parts := Parts + [p];
      sb := sb + |p.text|;
    }

    method AddRealPart(text: Text, pug: PugSpan?, id: nat)
      modifies this
      ensures Value() == AddText(old(Value()), id, text, pug)
    {
      var tsStartOffset := sb;
      var tsEndOffset := tsStartOffset + |text|;
      AddPart(Part(id, text, tsStartOffset, Some(tsEndOffset), None, pug));
    }

    method AddStatement(parts: seq<Part>, id: nat)
      requires AllTimed(parts)
      modifies this
      ensures Value() == V.AddStatement(old(Value()), parts, id)
    {
      assert parts[..0] == [];
      for i := 0 to |parts|
        invariant Value() == V.AddStatement(old(Value()), parts[..i], id)
      {
        assert parts[..i + 1][..i] == parts[..i];
        var p := parts[i];
        var tsStartOffset := sb;
        var tsEndOffset := tsStartOffset + (p.end.value - p.start);
        AddPart(Part(id + i, p.text, tsStartOffset, Some(tsEndOffset), None, p.pug));
      }
      assert parts[..|parts|] == parts;
    }

    /** Inserts `parts` behind the part `after`, if this statement has it, and returns
        the part to insert behind next. */
    method AddStatementAfterPart(parts: seq<Part>, after: nat, id: nat) returns (newAfter: Option<nat>)
      requires AllTimed(parts)
      modifies this
      ensures newAfter.None? <==> IndexOf(old(Parts), after) == |old(Parts)|
      ensures newAfter.None? ==> Value() == old(Value())
      ensures newAfter.Some? ==> Value() == Splice(old(Value()), parts, after, id)
    {
      var index := FindPart(after);
      if index == |Parts| {
        return None;
      }
      if index + 1 >= |Parts| {
        AddStatement(parts, id);
        return Some(after);
      }
      index := index + 1;
      ghost var first := index;
      ghost var was := Parts;
      Parts := Parts[..index] + parts + Parts[index..];
      var increasedLength := 0;
      assert parts[..0] == [];
      for i := 0 to |parts|
        invariant index == first + i && increasedLength == TotalSpan(parts[..i])
        invariant Parts == was[..first] + parts + was[first..]
      {
        assert parts[..i + 1][..i] == parts[..i];
        increasedLength := increasedLength + (parts[i].end.value - parts[i].start);
        index := index + 1;
      }
      assert parts[..|parts|] == parts;
      newAfter := Some(Parts[index - 1].id);
      ghost var start, joined := index, Parts;
      while index < |Parts|
        invariant start <= index <= |Parts| == |joined| && sb == old(sb)
        invariant forall x {:trigger Parts[x]} :: 0 <= x < |Parts| ==>
                    Parts[x] == if start <= x < index then ShiftPart(joined[x], increasedLength) else joined[x]
      {
        Parts := Parts[index := ShiftPart(Parts[index], increasedLength)];
        index := index + 1;
      }
      assert Parts == was[..first] + parts + ShiftAll(was[first..], increasedLength);
    }

    method FindPart(id: nat) returns (k: nat)
      ensures k == IndexOf(Parts, id)
    {
      k := 0;
      while k < |Parts| && Parts[k].id != id
        invariant k <= |Parts| && forall i :: 0 <= i < k ==> Parts[i].id != id
      {
        k := k + 1;
      }
    }

    method AddScopePart(scope: nat, id: nat)
      requires LastEnds(Value())
      modifies this
      ensures Value() == V.AddScopePart(old(Value()), scope, id)
    {
      var startOffset := 0;
      if |Parts| > 0 {
        startOffset := Parts[|Parts| - 1].end.value;
      }
      AddPart(Part(id, "", startOffset, None, Some(scope), null));
    }

    method CloseScopePart()
      requires Parts != []
      modifies this
      ensures Value() == V.CloseScopePart(old(Value()))
    {
      var last := |Parts| - 1;
      var endOffset := Parts[last].start + sb;
      Parts := Parts[last := Parts[last].(end := Some(endOffset))];
    }

    /** Traces an offset of the block back to a part. */
    method TsToPugLocation(start: nat) returns (k: Option<nat>)
      requires AllTimed(Parts)
      ensures k == TsToPug(Parts, start)
    {
      for i := 0 to |Parts|
        invariant forall j :: 0 <= j < i ==> !Holds(Parts[j], start)
      {
        if Parts[i].start <= start && Parts[i].end.value > start {
          return Some(i);
        }
      }
      return None;
    }
  }

  // ----- scopes stay linked to their parents -----

  predicate Marked(parts: seq<Part>, c: nat) {
    exists i :: 0 <= i < |parts| && parts[i].scope == Some(c)
  }

  predicate KeepsMarks(a: seq<Part>, b: seq<Part>) {
    |a| <= |b| && forall i {:trigger a[i]} :: 0 <= i < |a| && a[i].scope.Some? ==> Marked(b, a[i].scope.value)
  }

  /** Every scope has its part in the scope around it. */
  predicate Linked(st: State)
    requires Sound(st)
  {
    forall k {:trigger st.scopes[k].parent} :: 0 < k < |st.scopes| ==> LinkedTo(st, k)
  }

  predicate LinkedTo(st: State, k: nat)
    requires Sound(st) && 0 < k < |st.scopes|
  {
    assert ScopeSound(st, k);
    Marked(st.scopes[st.scopes[k].parent.value].built.parts, k)
  }

  lemma MarksOfStatement(b: Built, parts: seq<Part>, id: nat)
    requires AllTimed(parts)
    ensures KeepsMarks(b.parts, V.AddStatement(b, parts, id).parts)
  {
    AddStatementShape(b, parts, id);
    var r := V.AddStatement(b, parts, id);
    forall i | 0 <= i < |b.parts| && b.parts[i].scope.Some?
      ensures Marked(r.parts, b.parts[i].scope.value)
    {
      assert r.parts[..|b.parts|][i] == b.parts[i];
    }
  }

  lemma MarksOfSplice(b: Built, parts: seq<Part>, after: nat, id: nat)
    requires AllTimed(parts)
    ensures KeepsMarks(b.parts, Splice(b, parts, after, id).parts)
  {
    var k := IndexOf(b.parts, after);
    if k + 1 == |b.parts| {
      MarksOfStatement(b, parts, id);
    } else if k + 1 < |b.parts| {
      var r := Splice(b, parts, after, id);
      forall i | 0 <= i < |b.parts| && b.parts[i].scope.Some?
        ensures Marked(r.parts, b.parts[i].scope.value)
      {
        var j := if i <= k then i else i + |parts|;
        assert r.parts[j].scope == b.parts[i].scope;
      }
    }
  }

  /** One scope's parts changed and kept their marks. */
  lemma BuiltLinked(st: State, j: nat, b: Built, used: nat)
    requires Sound(st) && Linked(st) && j < |st.scopes| && Sound(SetBuilt(st, j, b, used))
    requires KeepsMarks(st.scopes[j].built.parts, b.parts)
    ensures Linked(SetBuilt(st, j, b, used))
  {
    var r := SetBuilt(st, j, b, used);
    forall k | 0 < k < |r.scopes|
      ensures LinkedTo(r, k)
    {
      assert LinkedTo(st, k);
      assert ScopeSound(st, k);
      var p := st.scopes[k].parent.value;
      var i :| 0 <= i < |st.scopes[p].built.parts| && st.scopes[p].built.parts[i].scope == Some(k);
    }
  }

  lemma OpenLinked(st: State, text: Text, pug: PugSpan?)
    requires Sound(st) && Linked(st)
    ensures Sound(Step(st, Open(text, pug)).value) && Linked(Step(st, Open(text, pug)).value)
  {
    hide Sound;
    TargetExists(st, false);
    StepSound(st, Open(text, pug));
    var r := Step(st, Open(text, pug)).value;
    var n := |st.scopes|;
    var old_ := st.scopes[st.current].built.parts;
    var now := r.scopes[st.current].built.parts;
    forall k | 0 < k < |r.scopes|
      ensures LinkedTo(r, k)
    {
      SoundScope(r, k);
      if k == n {
        assert now[|now| - 1].scope == Some(n);
      } else {
        assert LinkedTo(st, k);
        SoundScope(st, k);
        var p := st.scopes[k].parent.value;
        var i :| 0 <= i < |st.scopes[p].built.parts| && st.scopes[p].built.parts[i].scope == Some(k);
        assert r.scopes[p].built.parts[i].scope == Some(k);
      }
    }
  }

  lemma OpenStep(st: State, text: Text, pug: PugSpan?)
    requires Sound(st) && st.current < |st.scopes|
    ensures var b := V.AddScopePart(st.scopes[st.current].built, |st.scopes|, st.next);
            var outer := st.scopes[st.current].(built := b);
            var inner := S.Scope.Scope(AddText(NOTHING, st.next + 1, text, pug), Some(st.current));
            Step(st, Open(text, pug)) == Some(State(st.scopes[st.current := outer] + [inner], |st.scopes|, st.next + 2))
  {
  }

  lemma CloseLinked(st: State)
    requires Sound(st) && Linked(st) && st.current != 0
    ensures Step(st, Close).Some? && Sound(Step(st, Close).value) && Linked(Step(st, Close).value)
  {
    hide Sound;
    TargetExists(st, false);
    StepSound(st, Close);
    BracedSound(st);
    SoundScope(st, st.current);
    var s := Braced(st);
    var b := st.scopes[st.current].built;
    assert forall i :: 0 <= i < |b.parts| ==> s.scopes[st.current].built.parts[i] == b.parts[i];
    BuiltLinked(st, st.current, s.scopes[st.current].built, 1);
    var p := s.scopes[s.current].parent.value;
    var r := Step(st, Close).value;
    forall k | 0 < k < |r.scopes|
      ensures LinkedTo(r, k)
    {
      assert LinkedTo(s, k);
      SoundScope(s, k);
      SoundScope(r, k);
      var q := s.scopes[k].parent.value;
      var i :| 0 <= i < |s.scopes[q].built.parts| && s.scopes[q].built.parts[i].scope == Some(k);
      assert r.scopes[q].built.parts[i].scope == Some(k);
    }
  }

  class Scope {
    const Parts: Statement
    const ParentScope: Option<nat>

    constructor (parts: Statement, parentScope: Option<nat>)
      ensures Parts == parts && ParentScope == parentScope
    {
      Parts, ParentScope := parts, parentScope;
    }
  }

  class Tcb {
    /** All scopes, the root first, in the order they are opened. */
    var scopes: seq<Scope>
    var CurrentScope: nat
    /** The next identifier of a part. */
    var next: nat
    ghost var model: State

    ghost function Repr(): set<object>
      reads this`scopes
    {
      set s <- scopes :: s.Parts
    }

    ghost predicate Valid()
      reads this, Repr()
    {
      && Sound(model) && Linked(model)
      && |scopes| == |model.scopes| && CurrentScope == model.current && next == model.next
      && (forall i, j :: 0 <= i < j < |scopes| ==> scopes[i].Parts != scopes[j].Parts)
      && forall i {:trigger scopes[i]} :: 0 <= i < |scopes| ==>
           scopes[i].Parts.Value() == model.scopes[i].built && scopes[i].ParentScope == model.scopes[i].parent
    }

    constructor ()
      ensures Valid() && model == START && fresh(Repr())
    {
      var parts := new Statement();
      var root := new Scope(parts, None);
      scopes, CurrentScope, next := [root], 0, 0;
      model := START;
      new;
      assert ScopeSound(START, 0);
    }

    /** Appends to the open scope, or to the root. */
    method AddPart(root: bool, text: Text, pug: PugSpan?)
      requires Valid()
      modifies this`next, this`model, Repr()
      ensures Valid() && Step(old(model), Write(root, text, pug)) == Some(model)
    {
      hide Sound, Linked, PartSound;
      TargetExists(model, root);
      var j := if root then 0 else CurrentScope;
      StepSound(model, Write(root, text, pug));
      ghost var b := model.scopes[j].built;
      scopes[j].Parts.AddRealPart(text, pug, next);
      next := next + 1;
      assert KeepsMarks(b.parts, AddText(b, model.next, text, pug).parts) by { MarksOfText(b, model.next, text, pug); }
      BuiltLinked(model, j, AddText(b, model.next, text, pug), 1);
      model := SetBuilt(model, j, AddText(b, model.next, text, pug), 1);
    }

    method AddStatement(root: bool, parts: seq<Part>)
      requires Valid() && Copyable(parts)
      modifies this`next, this`model, Repr()
      ensures Valid() && Step(old(model), WriteStatement(root, parts)) == Some(model)
    {
      hide Sound, Linked, PartSound, V.AddStatement;
      TargetExists(model, root);
      var j := if root then 0 else CurrentScope;
      StepSound(model, WriteStatement(root, parts));
      ghost var b := model.scopes[j].built;
      scopes[j].Parts.AddStatement(parts, next);
      next := next + |parts|;
      MarksOfStatement(b, parts, model.next);
      BuiltLinked(model, j, V.AddStatement(b, parts, model.next), |parts|);
      model := SetBuilt(model, j, V.AddStatement(b, parts, model.next), |parts|);
    }

    static method NewScope(brace: Text, pug: PugSpan?, id: nat, parent: nat) returns (scope: Scope)
      ensures fresh(scope) && fresh(scope.Parts) && scope.ParentScope == Some(parent)
      ensures scope.Parts.Value() == AddText(NOTHING, id, brace, pug)
    {
      var parts := new Statement();
      scope := new Scope(parts, Some(parent));
      parts.AddRealPart(brace, pug, id);
    }

    method BeginScope(brace: Text, pug: PugSpan?)
      requires Valid()
      modifies this, Repr()
      ensures Valid() && Step(old(model), Open(brace, pug)) == Some(model) && fresh(Repr() - old(Repr()))
    {
      hide Sound, Linked, PartSound, Step, AddText, V.AddScopePart;
      TargetExists(model, false);
      OpenLinked(model, brace, pug);
      OpenStep(model, brace, pug);
      ghost var now := Step(model, Open(brace, pug)).value;
      SoundScope(model, model.current);
      var n := |scopes|;
      scopes[CurrentScope].Parts.AddScopePart(n, next);
      var scope := NewScope(brace, pug, next + 1, CurrentScope);
      scopes := scopes + [scope];
      CurrentScope, next := n, next + 2;
      model := now;
    }

    /** Fails on the root scope, where the source dereferences nil. */
    method EndScope() returns (ok: bool)
      requires Valid()
      modifies this`next, this`CurrentScope, this`model, Repr()
      ensures Step(old(model), Close) == if ok then Some(model) else None
      ensures ok ==> Valid()
    {
      hide Sound, Linked, PartSound;
      TargetExists(model, false);
      BracedSound(model);
      SoundScope(model, model.current);
      ghost var now := Step(model, Close);
      if model.current != 0 { CloseLinked(model); }
      ghost var s := Braced(model);
      scopes[CurrentScope].Parts.AddRealPart("}\n", null, next);
      next := next + 1;
      var parent := scopes[CurrentScope].ParentScope;
      if parent.None? {
        return false;
      }
      assert now == Leave(s) && now.Some? && parent == s.scopes[s.current].parent;
      CurrentScope := parent.value;
      scopes[CurrentScope].Parts.CloseScopePart();
      model := now.value;
      return true;
    }

    /** `Scope.ToStatement`; copies are numbered from `id` on. */
    method ToStatement(j: nat, id: nat) returns (statement: Statement, next': nat)
      requires Valid() && j < |scopes|
      ensures fresh(statement) && Flat(statement.Value(), next') == S.ToStatement(model, j, id)
      decreases |scopes| - j
    {
      hide Sound, Linked, V.AddStatement, Copyable;
      statement := new Statement();
      next' := id;
      var parts := scopes[j].Parts.Parts;
      for i := 0 to |parts|
        invariant fresh(statement) && Flat(statement.Value(), next') == FirstParts(model, j, i, id)
      {
        SoundScope(model, j);
        assert PartSound(model, j, parts[i]);
        if parts[i].scope.Some? {
          var inner, after := ToStatement(parts[i].scope.value, next');
          assert AllTimed(inner.Parts) by { InnerTimed(model, parts[i].scope.value, next'); }
          statement.AddStatement(inner.Parts, after);
          next' := after + |inner.Parts|;
        } else {
          statement.AddPart(parts[i]);
        }
      }
    }

    /** `Tcb.ToString`: the finished block. */
    method ToString(imports: Text, directives: seq<Part>, pipes: seq<Part>) returns (tcb: Statement)
      requires Valid() && Copyable(directives) && Copyable(pipes)
      ensures tcb.Value() == Block(model, imports, directives, pipes)
    {
      hide Sound, Linked, V.AddStatement;
      TargetExists(model, true);
      var flat, id := ToStatement(0, next);
      InnerTimed(model, 0, next);
      tcb := new Statement();
      tcb.AddRealPart(imports, null, id);
      tcb.AddStatement(directives, id + 1);
      tcb.AddStatement(pipes, id + 1 + |directives|);
      tcb.AddStatement(flat.Parts, id + 1 + |directives| + |pipes|);
    }

    /** Inserts `parts` behind the part `after` of some inner scope.  The search goes
        through the tree of scopes with a stack; the root itself is not searched. */
    method AddStatementAfterPart(parts: seq<Part>, after: nat) returns (newAfter: Option<nat>)
      requires Valid() && Copyable(parts)
      modifies this`next, this`model, Repr()
      ensures Valid()
      ensures newAfter.None? ==> model == old(model) && forall k :: 0 < k < |model.scopes| ==> !HasPart(model, k, after)
      ensures newAfter.Some? ==> Inserted(old(model), model, parts, after)
    {
      hide Sound, Linked, PartSound, V.AddStatement, Splice, Waiting, Inserted, Left, LinkedTo;
      TargetExists(model, true);
      var stack := PushScopes([], 0);
      var visited: set<nat> := {};
      StartWaiting(model, stack);
      while stack != []
        invariant Valid() && model == old(model) && scopes == old(scopes) && next == old(next)
        invariant Waiting(model, stack, visited) && forall k <- visited :: !HasPart(model, k, after)
        decreases Left(|scopes|, visited), |stack|
      {
        var scope := stack[|stack| - 1];
        ghost var was := stack;
        OnStack(model, stack, visited);
        stack := stack[..|stack| - 1];
        if scope in visited {
          PopVisited(model, was, visited);
          continue;
        }
        newAfter := scopes[scope].Parts.AddStatementAfterPart(parts, after, next);
        if newAfter.Some? {
          SpliceLinked(model, scope, parts, after);
          next := next + |parts|;
          model := SetBuilt(model, scope, Splice(model.scopes[scope].built, parts, after, model.next), |parts|);
          InsertedHere(old(model), scope, parts, after);
          return;
        }
        stack := PushScopes(stack, scope);
        VisitNext(model, was, stack, visited);
        LeftLess(|scopes|, visited, scope);
        visited := visited + {scope};
      }
      AllVisited(model, visited);
      return None;
    }

    /** Pushes the scopes whose parts scope `j` holds. */
    method PushScopes(stack: seq<nat>, j: nat) returns (r: seq<nat>)
      requires Valid() && j < |scopes|
      ensures stack <= r
      ensures forall c: nat :: Marked(model.scopes[j].built.parts, c) ==> c in r
      ensures forall c <- r[|stack|..] :: Marked(model.scopes[j].built.parts, c)
    {
      r := stack;
      var parts := scopes[j].Parts.Parts;
      for i := 0 to |parts|
        invariant stack <= r
        invariant forall x {:trigger parts[x]} :: 0 <= x < i && parts[x].scope.Some? ==> parts[x].scope.value in r
        invariant forall c <- r[|stack|..] :: Marked(parts, c)
      {
        if parts[i].scope.Some? {
          ghost var before := r;
          r := r + [parts[i].scope.value];
          assert r[|stack|..] == before[|stack|..] + [parts[i].scope.value];
        }
      }
    }
  }

  lemma InnerTimed(st: State, j: nat, id: nat)
    requires Sound(st) && j < |st.scopes|
    ensures AllTimed(S.ToStatement(st, j, id).built.parts)
  {
    hide Sound, S.ToStatement;
  }

  predicate HasPart(st: State, k: nat, id: nat) {
    k < |st.scopes| && IndexOf(st.scopes[k].built.parts, id) < |st.scopes[k].built.parts|
  }

  /** `parts` went into an inner scope that had the part `after`. */
  ghost predicate Inserted(st: State, r: State, parts: seq<Part>, after: nat)
    requires Sound(st) && Copyable(parts)
  {
    exists k :: 0 < k < |st.scopes| && HasPart(st, k, after) && Step(st, Insert(k, parts, after)) == Some(r)
  }

  lemma InsertedHere(st: State, k: nat, parts: seq<Part>, after: nat)
    requires Sound(st) && Copyable(parts) && 0 < k < |st.scopes| && HasPart(st, k, after)
    ensures Inserted(st, SetBuilt(st, k, Splice(st.scopes[k].built, parts, after, st.next), |parts|), parts, after)
  {
    hide Sound, Splice;
    assert Step(st, Insert(k, parts, after)) == Some(SetBuilt(st, k,
        Splice(st.scopes[k].built, parts, after, st.next), |parts|));
  }

  lemma SpliceLinked(st: State, k: nat, parts: seq<Part>, after: nat)
    requires Sound(st) && Linked(st) && Copyable(parts) && k < |st.scopes|
    ensures var r := SetBuilt(st, k, Splice(st.scopes[k].built, parts, after, st.next), |parts|); Sound(r) && Linked(r)
  {
    hide Sound, Linked, Splice;
    SpliceSound(st, k, parts, after, st.next);
    MarksOfSplice(st.scopes[k].built, parts, after, st.next);
    BuiltLinked(st, k, Splice(st.scopes[k].built, parts, after, st.next), |parts|);
  }

  /** How many of the first `n` scopes are not visited. */
  function Left(n: nat, visited: set<nat>): nat {
    if n == 0 then 0 else Left(n - 1, visited) + if n - 1 in visited then 0 else 1
  }

  lemma {:induction false} LeftLess(n: nat, visited: set<nat>, k: nat)
    requires k !in visited
    ensures Left(n, visited + {k}) == Left(n, visited) - if k < n then 1 else 0
  {
    if n != 0 {
      LeftLess(n - 1, visited, k);
    }
  }

  /** The stack holds inner scopes, and every inner scope is visited, on the stack, or
      inside an inner scope still to be visited. */
  ghost predicate Waiting(st: State, stack: seq<nat>, visited: set<nat>) {
    && (forall k <- stack :: 0 < k < |st.scopes|)
    && forall k {:trigger k in visited} :: 0 < k < |st.scopes| && k !in visited && k !in stack ==>
          Behind(st, k, visited)
  }

  ghost predicate Behind(st: State, k: nat, visited: set<nat>) {
    k < |st.scopes| && st.scopes[k].parent.Some? && st.scopes[k].parent.value != 0
        && st.scopes[k].parent.value !in visited
  }

  lemma OnStack(st: State, stack: seq<nat>, visited: set<nat>)
    requires Waiting(st, stack, visited) && stack != []
    ensures 0 < stack[|stack| - 1] < |st.scopes|
  {
    assert stack[|stack| - 1] in stack;
  }

  lemma StartWaiting(st: State, stack: seq<nat>)
    requires Sound(st) && Linked(st) && 0 < |st.scopes|
    requires forall c: nat :: Marked(st.scopes[0].built.parts, c) ==> c in stack
    requires forall c <- stack[0..] :: Marked(st.scopes[0].built.parts, c)
    ensures Waiting(st, stack, {})
  {
    hide Sound;
    forall k | k in stack
      ensures 0 < k < |st.scopes|
    {
      assert k in stack[0..];
      MarkedBelow(st, 0, k);
    }
    forall k | 0 < k < |st.scopes| && k !in stack
      ensures Behind(st, k, {})
    {
      assert LinkedTo(st, k);
      SoundScope(st, k);
    }
  }

  lemma PopVisited(st: State, stack: seq<nat>, visited: set<nat>)
    requires Waiting(st, stack, visited) && stack != [] && stack[|stack| - 1] in visited
    ensures Waiting(st, stack[..|stack| - 1], visited)
  {
    var rest := stack[..|stack| - 1];
    assert stack == rest + [stack[|stack| - 1]];
    assert forall k :: k in rest ==> k in stack;
    forall k | 0 < k < |st.scopes| && k !in visited && k !in rest
      ensures Behind(st, k, visited)
    {
      assert k !in stack;
    }
  }

  /** A scope is visited and the scopes in it are pushed. */
  lemma VisitNext(st: State, was: seq<nat>, stack: seq<nat>, visited: set<nat>)
    requires Sound(st) && Linked(st) && Waiting(st, was, visited) && was != [] && was[..|was| - 1] <= stack
    requires was[|was| - 1] < |st.scopes|
    requires var j := was[|was| - 1];
             && (forall c: nat :: Marked(st.scopes[j].built.parts, c) ==> c in stack)
             && forall c <- stack[|was| - 1..] :: Marked(st.scopes[j].built.parts, c)
    ensures Waiting(st, stack, visited + {was[|was| - 1]})
  {
    hide Sound;
    var j := was[|was| - 1];
    var rest := was[..|was| - 1];
    assert was == rest + [j];
    assert stack == rest + stack[|rest|..];
    forall k | k in stack
      ensures 0 < k < |st.scopes|
    {
      if k in rest {
        assert k in was;
      } else {
        assert k in stack[|was| - 1..];
        MarkedBelow(st, j, k);
      }
    }
    forall k | 0 < k < |st.scopes| && k !in visited + {j} && k !in stack
      ensures Behind(st, k, visited + {j})
    {
      assert k !in visited && k !in was;
      assert Behind(st, k, visited);
      assert LinkedTo(st, k);
      SoundScope(st, k);
    }
  }

  lemma MarkedBelow(st: State, j: nat, c: nat)
    requires Sound(st) && j < |st.scopes| && Marked(st.scopes[j].built.parts, c)
    ensures j < c < |st.scopes|
  {
    SoundScope(st, j);
    var i :| 0 <= i < |st.scopes[j].built.parts| && st.scopes[j].built.parts[i].scope == Some(c);
    assert PartSound(st, j, st.scopes[j].built.parts[i]);
  }

  /** With nothing left to visit, everything has been visited. */
  lemma AllVisited(st: State, visited: set<nat>)
    requires Sound(st) && Waiting(st, [], visited)
    ensures forall k :: 0 < k < |st.scopes| ==> k in visited
  {
    forall k: nat | 0 < k < |st.scopes|
      ensures k in visited
    {
      Visited(st, visited, k);
    }
  }

  lemma {:induction false} Visited(st: State, visited: set<nat>, k: nat)
    requires Sound(st) && Waiting(st, [], visited) && 0 < k < |st.scopes|
    ensures k in visited
    decreases k
  {
    SoundScope(st, k);
    var p := st.scopes[k].parent.value;
    if p != 0 {
      Visited(st, visited, p);
    }
  }

  lemma MarksOfText(b: Built, id: nat, text: Text, pug: PugSpan?)
    ensures KeepsMarks(b.parts, AddText(b, id, text, pug).parts)
  {
    var r := AddText(b, id, text, pug);
    assert forall i :: 0 <= i < |b.parts| ==> r.parts[i] == b.parts[i];
  }
}
