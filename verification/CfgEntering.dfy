/** What the builder's larger steps do to the paths: entering and leaving a branch, a loop
    or a function, and jumping. */
module CfgEntering {
  import opened Options
  import opened CfgSyntax
  import opened CfgGraph
  import opened CfgInvariant
  import opened CfgTold
  import opened CfgFlow
  import opened CfgReach

  /** A block of the current function without edges out and nodes. */
  function Fresh(reached: bool): View {
    View(reached, true, true, true)
  }

  /** The same, once a node is recorded in it. */
  function Started(reached: bool): View {
    View(reached, true, false, true)
  }

  function ReachedIf(reached: bool, b: nat): set<nat> {
    if reached then {b} else {}
  }

  lemma NewBlockStep(st: State, X: set<nat>)
    requires Wf(st)
    ensures var n := |st.blocks|; var r := AddBlock(st);
      && |r.blocks| == n + 1 && Step(st, r, {}, X, 0) && Reach(r) == Reach(st) && Look(r, n) == Fresh(false)
      && forall x: nat :: x < n ==> SameLook(st, r, x)
  {
    AddBlockStep(st, X);
  }

  /** Blocks from `n` on are fresh. */
  ghost predicate AllFresh(st: State, n: nat) {
    Wf(st) && n <= |st.blocks| && forall x: nat :: n <= x < |st.blocks| ==> Look(st, x) == Fresh(false)
  }

  /** Of the blocks before `n` the same ones are reached. */
  ghost predicate SameReach(st: State, r: State, n: nat) {
    forall x: nat :: x < n ==> (x in Reach(r) <==> x in Reach(st))
  }

  ghost predicate SameBelow(st: State, r: State, n: nat) {
    forall x: nat :: x < n ==> SameLook(st, r, x)
  }

  lemma NextBlockStep(st: State, s: State, n: nat, X: set<nat>)
    requires Step(st, s, {}, X, 0) && AllFresh(s, n) && SameBelow(st, s, n) && Reach(s) == Reach(st)
    ensures var r := AddBlock(s);
      Step(st, r, {}, X, 0) && AllFresh(r, n) && SameBelow(st, r, n) && Reach(r) == Reach(st)
  {
    hide Step, Reach, Wf, AddBlock;
    var r := AddBlock(s);
    NewBlockStep(s, X);
    StepThen(st, s, r, {}, {}, {}, X, 0, 0);
    forall x: nat | n <= x < |r.blocks|
      ensures Look(r, x) == Fresh(false)
    {
      assert x < |s.blocks| ==> SameLook(s, r, x);
    }
    forall x: nat | x < n
      ensures SameLook(st, r, x)
    {
      SameLookThen(st, s, r, x);
    }
  }

  lemma NewBlocksStep(st: State, X: set<nat>)
    requires Wf(st)
    ensures var n := |st.blocks|; var r := AddBlock(AddBlock(AddBlock(st)));
      && |r.blocks| == n + 3 && Step(st, r, {}, X, 0) && Reach(r) == Reach(st)
      && AllFresh(r, n) && SameBelow(st, r, n)
    ensures var n := |st.blocks|; var r := AddBlock(AddBlock(AddBlock(AddBlock(st))));
      && |r.blocks| == n + 4 && Step(st, r, {}, X, 0) && Reach(r) == Reach(st)
      && AllFresh(r, n) && SameBelow(st, r, n)
  {
    SameGraphStep(st, st, X);
    hide AddBlock, Step, Reach, SameLook, Wf, Look;
    var n := |st.blocks|;
    var a := AddBlock(st);
    NextBlockStep(st, st, n, X);
    NextBlockStep(st, a, n, X);
    NextBlockStep(st, AddBlock(a), n, X);
    NextBlockStep(st, AddBlock(AddBlock(a)), n, X);
  }

  lemma ConditionStep(st: State, id: NodeId, n: nat, condId: NodeId, X: set<nat>)
    requires Wf(st) && OfCurrentFun(st, st.current) && n < |st.blocks| && n != st.current && n !in X
    requires Look(st, n) == Fresh(false)
    ensures var r, o := EnterCondition(st, id, n, condId), Opened(CursorOf(st));
      && Step(st, r, Only(!o.reached, id) + Only(!o.reached, condId), X, 0)
      && Reach(r) == Reach(st) + ReachedIf(o.reached, n) && r.current == n && Look(r, n) == Started(o.reached)
      && (forall x: nat :: x < |st.blocks| && x != n && x != st.current ==> SameLook(st, r, x))
  {
    hide AddInstruction, AddEdge, SetNode, SetCurrent, Step, Reach, Wf;
    var o := Opened(CursorOf(st));
    AddInstructionStep(st, Branch, id, X);
    var s1 := AddInstruction(st, Branch, id);
    assert SameLook(st, s1, n);
    AddEdgeStep(s1, s1.current, n, X);
    var s2 := AddEdge(s1, s1.current, n);
    StepThen(st, s1, s2, Only(!o.reached, id), {}, Only(!o.reached, id), X, 0, 0);
    SetNodeStep(s2, n, condId, X);
    var s3 := SetNode(s2, n, condId);
    var m := Only(!o.reached, id) + Only(!o.reached, condId);
    StepThen(st, s2, s3, Only(!o.reached, id), Only(!o.reached, condId), m, X, 0, 0);
    SetCurrentStep(s3, n, X);
    var s4 := SetCurrent(s3, n);
    assert SameLook(s3, s4, n);
    StepThen(st, s3, s4, m, {}, m, X, 0, 0);
    AddInstructionStep(s4, Branch, id, X);
    var r := AddInstruction(s4, Branch, id);
    StepThen(st, s4, r, m, Only(!o.reached, id), m, X, 0, 0);
    forall x: nat | x < |st.blocks| && x != n && x != st.current
      ensures SameLook(st, r, x)
    {
      assert SameLook(st, s1, x) && SameLook(s1, s2, x) && SameLook(s2, s3, x);
      assert SameLook(s3, s4, x) && SameLook(s4, r, x);
    }
  }

  lemma EdgeUnlessStep(st: State, skip: bool, b: nat, node: NodeId, X: set<nat>)
    requires Wf(st) && Look(st, st.current).mine && b < |st.blocks| && b != st.current && b !in X
    requires Look(st, b) == Fresh(false)
    ensures var r := SetNode(EdgeUnless(st, skip, b), b, node); var v := Look(st, st.current);
      && Step(st, r, Only(!v.reached || skip, node), X, 0) && r.current == st.current && |r.blocks| == |st.blocks|
      && Reach(r) == Reach(st) + ReachedIf(v.reached && !skip, b) && Look(r, b) == Started(v.reached && !skip)
      && Look(r, r.current) == v.(open := v.open && skip)
      && (forall x: nat :: x < |st.blocks| && x != b && x != st.current ==> SameLook(st, r, x))
  {
    hide AddEdge, SetNode, Step, Reach, Wf;
    var s1 := EdgeUnless(st, skip, b);
    if skip {
      SameGraphStep(st, st, X);
    } else {
      AddEdgeStep(st, st.current, b, X);
    }
    var told := Only(!Look(st, st.current).reached || skip, node);
    SetNodeStep(s1, b, node, X);
    var r := SetNode(s1, b, node);
    StepThen(st, s1, r, {}, told, told, X, 0, 0);
    assert SameLook(s1, r, st.current);
    forall x: nat | x < |st.blocks| && x != b && x != st.current
      ensures SameLook(st, r, x)
    {
      SameLookThen(st, s1, r, x);
    }
  }

  // ----- branches -----

  function AltMissed(alt: Else, b: bool): set<NodeId> {
    if alt.ElseClause? then Only(b, alt.id) else {}
  }

  lemma ElseBranchStep(st: State, n: nat, impl: Expr, alt: Else, X: set<nat>)
    requires Wf(st) && st.current == n && n + 4 <= |st.blocks| && Look(st, n).mine && n + 2 !in X && n + 3 !in X
    requires Look(st, n + 2) == Look(st, n + 3) == Fresh(false)
    ensures var r, q := ElseBranch(st, n, impl, alt), Look(st, n).reached; var f := q && !ConstantTrue(impl);
      && Step(st, r, AltMissed(alt, !f), X, 0) && |r.blocks| == |st.blocks|
      && SameLook(st, r, n + 1) && SameReach(st, r, n)
      && (alt.NoElse? ==> Look(r, n + 2) == Fresh(false) && Look(r, n + 3) == Fresh(q))
      && (alt.ElseClause? ==> Look(r, n + 2) == Started(f) && Look(r, n + 3) == Fresh(false))
  {
    hide AddEdge, SetNode, EdgeUnless, Step, Reach, Wf, ConstantTrue;
    if alt.NoElse? {
      AddEdgeStep(st, n, n + 3, X);
      assert SameLook(st, ElseBranch(st, n, impl, alt), n + 2);
    } else {
      EdgeUnlessStep(st, ConstantTrue(impl), n + 2, alt.id, X);
      assert SameLook(st, ElseBranch(st, n, impl, alt), n + 3);
    }
  }

  /** The first instruction of a block that has its node. */
  lemma StartBlockStep(st: State, b: nat, id: NodeId, X: set<nat>)
    requires Wf(st) && b < |st.blocks| && Look(st, b) == Started(Look(st, b).reached)
    ensures var r := AddInstruction(SetCurrent(st, b), Branch, id); var q := Look(st, b).reached;
      && Step(st, r, Only(!q, id), X, 0) && Reach(r) == Reach(st) && SameLooks(st, r, b) && r.current == b
      && Look(r, b) == Started(q)
  {
    hide AddInstruction, SetCurrent, Step, Reach, Wf;
    SetCurrentStep(st, b, X);
    var s := SetCurrent(st, b);
    assert SameLook(st, s, b);
    AddInstructionStep(s, Branch, id, X);
    var r := AddInstruction(s, Branch, id);
    var m := Only(!Look(st, b).reached, id);
    StepThen(st, s, r, {}, m, m, X, 0, 0);
    forall x: nat | x < |st.blocks| && x != b
      ensures SameLook(st, r, x)
    {
      SameLookThen(st, s, r, x);
    }
  }

  /** The edges out of a condition block. */
  lemma ForkStep(st: State, n: nat, impl: Expr, consId: NodeId, alt: Else, X: set<nat>)
    requires Wf(st) && st.current == n && n + 4 <= |st.blocks| && Look(st, n).mine
    requires n + 1 !in X && n + 2 !in X && n + 3 !in X
    requires Look(st, n + 1) == Look(st, n + 2) == Look(st, n + 3) == Fresh(false)
    ensures var r, q := Forked(st, n, impl, consId, alt), Look(st, n).reached;
            var t, f := q && !ConstantFalse(impl), q && !ConstantTrue(impl);
      && Step(st, r, Only(!t, consId) + AltMissed(alt, !f), X, 0) && Look(r, n + 1) == Started(t)
      && SameReach(st, r, n)
      && (alt.NoElse? ==> Look(r, n + 2) == Fresh(false) && Look(r, n + 3) == Fresh(q))
      && (alt.ElseClause? ==> Look(r, n + 2) == Started(f) && Look(r, n + 3) == Fresh(false))
  {
    hide ElseBranch, SetNode, EdgeUnless, Step, Reach, Wf, ConstantTrue, ConstantFalse, Look, OfCurrentFun;
    var q := Look(st, n).reached;
    var t, f := q && !ConstantFalse(impl), q && !ConstantTrue(impl);
    EdgeUnlessStep(st, ConstantFalse(impl), n + 1, consId, X);
    var s1 := SetNode(EdgeUnless(st, ConstantFalse(impl), n + 1), n + 1, consId);
    assert SameLook(st, s1, n + 2) && SameLook(st, s1, n + 3);
    ElseBranchStep(s1, n, impl, alt, X);
    var r := ElseBranch(s1, n, impl, alt);
    StepThen(st, s1, r, Only(!t, consId), AltMissed(alt, !f), Only(!t, consId) + AltMissed(alt, !f), X, 0, 0);
    assert SameLook(s1, r, n + 1);
  }

  function Forked(st: State, n: nat, impl: Expr, consId: NodeId, alt: Else): (r: State)
    requires Wf(st) && n + 4 <= |st.blocks|
    ensures Wf(r) && |r.blocks| == |st.blocks|
  {
    ElseBranch(SetNode(EdgeUnless(st, ConstantFalse(impl), n + 1), n + 1, consId), n, impl, alt)
  }

  lemma BranchesStep(st: State, n: nat, impl: Expr, consId: NodeId, alt: Else, X: set<nat>)
    requires Wf(st) && st.current == n && n + 4 <= |st.blocks| && Look(st, n).mine
    requires n + 1 !in X && n + 2 !in X && n + 3 !in X
    requires Look(st, n + 1) == Look(st, n + 2) == Look(st, n + 3) == Fresh(false)
    ensures var r, q := EnterBranches(st, n, impl, consId, alt), Look(st, n).reached;
            var t, f := q && !ConstantFalse(impl), q && !ConstantTrue(impl);
      && Step(st, r, Only(!t, consId) + AltMissed(alt, !f), X, 0) && r.current == n + 1 && Look(r, n + 1) == Started(t)
      && SameReach(st, r, n)
      && (alt.NoElse? ==> Look(r, n + 2) == Fresh(false) && Look(r, n + 3) == Fresh(q))
      && (alt.ElseClause? ==> Look(r, n + 2) == Started(f) && Look(r, n + 3) == Fresh(false))
  {
    hide AddInstruction, ElseBranch, SetNode, SetCurrent, EdgeUnless, Step, Reach, Wf, ConstantTrue, ConstantFalse,
        Look, OfCurrentFun;
    ForkStep(st, n, impl, consId, alt, X);
    var s := Forked(st, n, impl, consId, alt);
    var q := Look(st, n).reached;
    var t, f := q && !ConstantFalse(impl), q && !ConstantTrue(impl);
    StartBlockStep(s, n + 1, consId, X);
    var r := AddInstruction(SetCurrent(s, n + 1), Branch, consId);
    var m := Only(!t, consId) + AltMissed(alt, !f);
    StepThen(st, s, r, m, Only(!t, consId), m, X, 0, 0);
    assert SameLook(s, r, n + 2) && SameLook(s, r, n + 3);
  }

  /** Entered: the nodes that were missed on the way, and the older blocks as they were. */
  ghost predicate Entered(st: State, r: State, missed: set<NodeId>, X: set<nat>, weight: int) {
    Step(st, r, missed, X, weight) && SameReach(st, r, |st.blocks|)
  }

  lemma EnterIfStep(st: State, s: Stmt, impl: Expr, X: set<nat>)
    requires Wf(st) && OfCurrentFun(st, st.current) && s.If? && ConditionNode(s.cond) == Some(impl)
    requires Below(X, |st.blocks|)
    ensures var n, r, o := |st.blocks|, EnterIf(st, s.id, s.cond, impl, s.cons.id, s.alt), Opened(CursorOf(st));
            var t, f := o.reached && !Pruned(s.cond, false), o.reached && !Pruned(s.cond, true);
      && Entered(st, r, EnterMissed(s, o), X, 0) && r.current == n + 1 && |r.blocks| >= n + 4
      && Look(r, n + 1) == Started(t)
      && (s.alt.NoElse? ==> Look(r, n + 2) == Fresh(false) && Look(r, n + 3) == Fresh(o.reached))
      && (s.alt.ElseClause? ==> Look(r, n + 2) == Started(f) && Look(r, n + 3) == Fresh(false))
  {
    hide AddBlock, EnterCondition, EnterBranches, Step, Reach, Wf, ConstantTrue, ConstantFalse, Quiet;
    var n, o := |st.blocks|, Opened(CursorOf(st));
    NewBlocksStep(st, X);
    var s0 := AddBlock(AddBlock(AddBlock(AddBlock(st))));
    assert SameLook(st, s0, st.current);
    ConditionStep(s0, s.id, n, s.cond.id, X);
    var s1 := EnterCondition(s0, s.id, n, s.cond.id);
    var m1 := Only(!o.reached, s.id) + Only(!o.reached, s.cond.id);
    StepThen(st, s0, s1, {}, m1, m1, X, 0, 0);
    assert SameLook(s0, s1, n + 1) && SameLook(s0, s1, n + 2) && SameLook(s0, s1, n + 3);
    BranchesStep(s1, n, impl, s.cons.id, s.alt, X);
    var r := EnterBranches(s1, n, impl, s.cons.id, s.alt);
    var m2 := Only(!o.reached || Pruned(s.cond, false), s.cons.id)
              + AltMissed(s.alt, !o.reached || Pruned(s.cond, true));
    StepThen(st, s1, r, m1, m2, EnterMissed(s, o), X, 0, 0);
  }

  /** The edge that closes a branch. */
  lemma JoinStep(st: State, b: nat, X: set<nat>)
    requires Wf(st) && Look(st, st.current).mine && b < |st.blocks| && Look(st, b).mine && b != st.current
    requires var v := Look(st, st.current);
      v.reached && v.open ==> Look(st, b).reached || (Look(st, b).open && Look(st, b).blank)
    ensures var r, v, w := JoinTo(st, b), Look(st, st.current), Look(st, b); var joins := v.reached && v.open;
      && Step(st, r, {}, X, if joins then Count(w.reached || b in X) else 0)
      && Reach(r) == Reach(st) + ReachedIf(joins, b) && Look(r, b) == w.(reached := w.reached || joins)
      && (forall x: nat :: x < |st.blocks| && x != st.current && x != b ==> SameLook(st, r, x))
      && r.current == st.current
  {
    hide AddEdge, Step, Reach, Wf, SameLook;
    if Look(st, st.current).open {
      AddEdgeStep(st, st.current, b, X);
    } else {
      SameGraphStep(st, st, X);
    }
  }

  lemma LeaveIfStep(st: State, n: nat, alt: Else, q: bool, f: bool, X: set<nat>)
    requires Wf(st) && Look(st, st.current).mine && n + 4 <= |st.blocks|
    requires st.current != n + 2 && st.current != n + 3 && n + 3 !in X
    requires Look(st, n + 3) == Fresh(alt.NoElse? && q)
    requires var v := Look(st, n + 2); alt.ElseClause? ==> v.reached == f && v.open && v.mine
    ensures var r := LeaveIf(st, n, alt);
            var joins, other := CursorOf(st).reached && CursorOf(st).open, if alt.NoElse? then q else f;
      && Step(st, r, {}, X, Count(joins && other)) && r.current == n + 3 && Look(r, n + 3) == Fresh(joins || other)
      && Reach(r) == Reach(st) + ReachedIf(joins || other, n + 3)
  {
    hide JoinTo, SetCurrent, Step, Reach, Wf, Quiet;
    JoinStep(st, n + 3, X);
    var s1 := JoinTo(st, n + 3);
    var joins := CursorOf(st).reached && CursorOf(st).open;
    var s2 := s1;
    if alt.ElseClause? {
      assert SameLook(st, s1, n + 2);
      SetCurrentStep(s1, n + 2, X);
      var s := SetCurrent(s1, n + 2);
      assert SameLook(s1, s, n + 2) && SameLook(s1, s, n + 3);
      StepThen(st, s1, s, {}, {}, {}, X, 0, 0);
      JoinStep(s, n + 3, X);
      s2 := JoinTo(s, n + 3);
      StepThen(st, s, s2, {}, {}, {}, X, 0, Count(joins && f));
    }
    SetCurrentStep(s2, n + 3, X);
    var r := SetCurrent(s2, n + 3);
    assert SameLook(s2, r, n + 3);
    StepThen(st, s2, r, {}, {}, {}, X, Count(joins && if alt.NoElse? then q else f), 0);
  }

  // ----- loops -----

  /** The edge to the block behind a loop, unless the guard is constantly true. */
  lemma StopEdgeStep(st: State, n: nat, skip: bool, X: set<nat>)
    requires Wf(st) && st.current == n && n + 3 <= |st.blocks| && Look(st, n).mine && n + 2 in X
    requires Look(st, n + 1) == Look(st, n + 2) == Fresh(false)
    ensures var r, q := if skip then st else AddEdge(st, n, n + 2), Look(st, n).reached;
      && Step(st, r, {}, X, Count(q && !skip)) && r.current == n
      && Look(r, n + 1) == Fresh(false) && Look(r, n + 2) == Fresh(q && !skip)
      && Look(r, n).reached == q && Look(r, n).mine
      && SameReach(st, r, n)
  {
    hide AddEdge, Step, Reach, Wf;
    if skip {
      SameGraphStep(st, st, X);
    } else {
      AddEdgeStep(st, n, n + 2, X);
      assert SameLook(st, AddEdge(st, n, n + 2), n + 1);
    }
  }

  /** The edge to the body of a loop, unless the guard is constantly false. */
  lemma BodyEdgeStep(st: State, n: nat, skip: bool, bodyId: NodeId, X: set<nat>)
    requires Wf(st) && st.current == n && n + 3 <= |st.blocks| && Look(st, n).mine && n + 1 !in X
    requires Look(st, n + 1) == Fresh(false)
    ensures var r, q := SetCurrent(SetNode(EdgeUnless(st, skip, n + 1), n + 1, bodyId), n + 1), Look(st, n).reached;
            var b := q && !skip;
      && Step(st, r, Only(!b, bodyId), X, 0) && Look(r, n + 1) == Started(b) && SameLook(st, r, n + 2)
      && Look(r, n).reached == q && Look(r, n).mine && SameReach(st, r, n)
  {
    hide EdgeUnless, SetNode, SetCurrent, Step, Reach, Wf, Look, OfCurrentFun;
    var b := Look(st, n).reached && !skip;
    EdgeUnlessStep(st, skip, n + 1, bodyId, X);
    var s1 := SetNode(EdgeUnless(st, skip, n + 1), n + 1, bodyId);
    SetCurrentStep(s1, n + 1, X);
    var r := SetCurrent(s1, n + 1);
    StepThen(st, s1, r, Only(!b, bodyId), {}, Only(!b, bodyId), X, 0, 0);
    assert SameLook(s1, r, n) && SameLook(s1, r, n + 1);
    SameLookThen(st, s1, r, n + 2);
  }

  lemma WhileBranchesStep(st: State, n: nat, impl: Expr, bodyId: NodeId, X: set<nat>)
    requires Wf(st) && st.current == n && n + 3 <= |st.blocks| && Look(st, n).mine && n + 1 !in X && n + 2 in X
    requires Look(st, n + 1) == Look(st, n + 2) == Fresh(false)
    ensures var r, q := WhileBranches(st, n, impl, bodyId), Look(st, n).reached;
            var b, x := q && !ConstantFalse(impl), q && !ConstantTrue(impl);
      && Step(st, r, Only(!b, bodyId), X, Count(x)) && r.current == n + 1
      && Look(r, n + 1) == Started(b) && Look(r, n + 2) == Fresh(x) && Look(r, n).reached == q && Look(r, n).mine
      && SameReach(st, r, n)
  {
    hide AddEdge, SetNode, SetCurrent, EdgeUnless, Step, Reach, Wf, ConstantTrue, ConstantFalse, Look, OfCurrentFun;
    var q := Look(st, n).reached;
    var b, x := q && !ConstantFalse(impl), q && !ConstantTrue(impl);
    StopEdgeStep(st, n, ConstantTrue(impl), X);
    var s1 := if ConstantTrue(impl) then st else AddEdge(st, n, n + 2);
    BodyEdgeStep(s1, n, ConstantFalse(impl), bodyId, X);
    StepThen(st, s1, WhileBranches(st, n, impl, bodyId), {}, Only(!b, bodyId), Only(!b, bodyId), X, Count(x), 0);
  }

  /** A loop entered: its guard is block `cont`, its body is current, and the block behind
      it follows.  `q` says whether the guard is reached. */
  ghost predicate LoopReady(st: State, r: State, m: set<NodeId>, X: set<nat>, cont: nat, q: bool, body: bool,
      stops: bool)
  {
    && Entered(st, r, m, X + {cont + 2}, Count(stops)) && r.current == cont + 1 && cont + 3 <= |r.blocks|
    && Look(r, cont + 1) == Started(body) && Look(r, cont + 2) == Fresh(stops)
    && Look(r, cont).reached == q && Look(r, cont).mine
  }

  lemma EnterWhileStep(st: State, s: Stmt, impl: Expr, X: set<nat>)
    requires Wf(st) && OfCurrentFun(st, st.current) && s.While? && ConditionNode(s.cond) == Some(impl)
    requires Below(X, |st.blocks|)
    ensures var r, o := EnterWhile(st, s.id, s.cond, impl, s.body.id), Opened(CursorOf(st));
            var q := o.reached;
      LoopReady(st, r, EnterMissed(s, o), X, |st.blocks|, q, q && !Pruned(s.cond, false), q && !Pruned(s.cond, true))
  {
    hide AddBlock, EnterCondition, WhileBranches, Step, Reach, Wf, ConstantTrue, ConstantFalse, Quiet;
    var n, o, Y := |st.blocks|, Opened(CursorOf(st)), X + {|st.blocks| + 2};
    NewBlocksStep(st, Y);
    var a := AddBlock(AddBlock(AddBlock(st)));
    var s0 := PushLoop(a, n, n + 2);
    SameGraphStep(a, s0, Y);
    StepThen(st, a, s0, {}, {}, {}, Y, 0, 0);
    assert SameLook(st, a, st.current) && SameLook(a, s0, st.current);
    assert SameLook(a, s0, n) && SameLook(a, s0, n + 1) && SameLook(a, s0, n + 2);
    ConditionStep(s0, s.id, n, s.cond.id, Y);
    var s1 := EnterCondition(s0, s.id, n, s.cond.id);
    var m1 := Only(!o.reached, s.id) + Only(!o.reached, s.cond.id);
    StepThen(st, s0, s1, {}, m1, m1, Y, 0, 0);
    assert SameLook(s0, s1, n + 1) && SameLook(s0, s1, n + 2);
    WhileBranchesStep(s1, n, impl, s.body.id, Y);
    var r := WhileBranches(s1, n, impl, s.body.id);
    StepThen(st, s1, r, m1, Only(!o.reached || Pruned(s.cond, false), s.body.id), EnterMissed(s, o), Y, 0,
             Count(o.reached && !Pruned(s.cond, true)));
  }

  lemma ForInInitStep(st: State, id: NodeId, X: set<nat>)
    requires Wf(st) && OfCurrentFun(st, st.current) && ForInBase(st) !in X
    ensures var n, r, o := ForInBase(st), ForInInit(st, id), Opened(CursorOf(st));
      && Step(st, r, Only(!o.reached, id), X, 0) && Reach(r) == Reach(st) + ReachedIf(o.reached, n)
      && Look(r, n) == Fresh(o.reached)
      && Look(r, n + 1) == Look(r, n + 2) == Look(r, n + 3) == Fresh(false)
  {
    hide AddBlock, AddInstruction, AddEdge, SetCurrent, Step, Reach, Wf, ForInBase, Quiet;
    var n, o := ForInBase(st), Opened(CursorOf(st));
    AddInstructionStep(st, Branch, id, X);
    var s0 := AddInstruction(st, Branch, id);
    assert |s0.blocks| == n by { ForInBaseIs(st, id); }
    NewBlocksStep(s0, X);
    var a := AddBlock(AddBlock(AddBlock(AddBlock(s0))));
    var m := Only(!o.reached, id);
    StepThen(st, s0, a, m, {}, m, X, 0, 0);
    var s1 := PushLoop(a, n + 1, n + 3);
    SameGraphStep(a, s1, X);
    StepThen(st, a, s1, m, {}, m, X, 0, 0);
    assert SameLook(s0, a, s0.current) && SameLook(a, s1, s0.current);
    assert SameLook(a, s1, n) && SameLook(a, s1, n + 1) && SameLook(a, s1, n + 2) && SameLook(a, s1, n + 3);
    AddEdgeStep(s1, s1.current, n, X);
    var s2 := AddEdge(s1, s1.current, n);
    StepThen(st, s1, s2, m, {}, m, X, 0, 0);
    assert SameLook(s1, s2, n + 1) && SameLook(s1, s2, n + 2) && SameLook(s1, s2, n + 3);
    SetCurrentStep(s2, n, X);
    var r := SetCurrent(s2, n);
    StepThen(st, s2, r, m, {}, m, X, 0, 0);
    assert SameLook(s2, r, n) && SameLook(s2, r, n + 1) && SameLook(s2, r, n + 2) && SameLook(s2, r, n + 3);
  }

  lemma ForInIteratorStep(st: State, n: nat, right: NodeId, X: set<nat>)
    requires Wf(st) && n + 4 <= |st.blocks| && st.current == n && n + 1 !in X
    requires Look(st, n) == Fresh(Look(st, n).reached)
    requires Look(st, n + 1) == Look(st, n + 2) == Look(st, n + 3) == Fresh(false)
    ensures var r, q := ForInIterator(st, n, right), Look(st, n).reached;
      && Step(st, r, Only(!q, right), X, 0) && Reach(r) == Reach(st) + ReachedIf(q, n + 1) && r.current == n + 1
      && Look(r, n + 1) == Fresh(q) && Look(r, n + 2) == Look(r, n + 3) == Fresh(false)
  {
    hide AddInstruction, AddEdge, SetCurrent, Step, Reach, Wf, Quiet;
    var q := Look(st, n).reached;
    AddInstructionStep(st, Assign, right, X);
    var s1 := AddInstruction(st, Assign, right);
    assert SameLook(st, s1, n + 1) && SameLook(st, s1, n + 2) && SameLook(st, s1, n + 3);
    AddEdgeStep(s1, n, n + 1, X);
    var s2 := AddEdge(s1, n, n + 1);
    StepThen(st, s1, s2, Only(!q, right), {}, Only(!q, right), X, 0, 0);
    assert SameLook(s1, s2, n + 2) && SameLook(s1, s2, n + 3);
    SetCurrentStep(s2, n + 1, X);
    var r := SetCurrent(s2, n + 1);
    StepThen(st, s2, r, Only(!q, right), {}, Only(!q, right), X, 0, 0);
    assert SameLook(s2, r, n + 1) && SameLook(s2, r, n + 2) && SameLook(s2, r, n + 3);
  }

  lemma ForInNextStep(st: State, n: nat, right: NodeId, bodyId: NodeId, X: set<nat>)
    requires Wf(st) && n + 4 <= |st.blocks| && st.current == n + 1 && n + 2 !in X && n + 3 in X
    requires Look(st, n + 1) == Fresh(Look(st, n + 1).reached)
    requires Look(st, n + 2) == Look(st, n + 3) == Fresh(false)
    ensures var r, q := ForInNext(st, n, right, bodyId), Look(st, n + 1).reached;
      && Step(st, r, Only(!q, right) + Only(!q, bodyId), X, Count(q)) && r.current == n + 2
      && Reach(r) == Reach(st) + ReachedIf(q, n + 2) + ReachedIf(q, n + 3)
      && Look(r, n + 1).reached == q && Look(r, n + 1).mine
      && Look(r, n + 2) == Started(q) && Look(r, n + 3) == Fresh(q)
  {
    hide AddInstruction, AddEdge, SetNode, SetCurrent, Step, Reach, Wf, Quiet;
    var q := Look(st, n + 1).reached;
    var m := Only(!q, right);
    AddInstructionStep(st, Assign, right, X);
    var s1 := AddInstruction(st, Assign, right);
    assert SameLook(st, s1, n + 2) && SameLook(st, s1, n + 3);
    AddInstructionStep(s1, Branch, right, X);
    var s2 := AddInstruction(s1, Branch, right);
    assert SameLook(s1, s2, n + 2) && SameLook(s1, s2, n + 3);
    StepThen(st, s1, s2, m, m, m, X, 0, 0);
    AddEdgeStep(s2, n + 1, n + 2, X);
    var s3 := AddEdge(s2, n + 1, n + 2);
    assert SameLook(s2, s3, n + 3);
    StepThen(st, s2, s3, m, {}, m, X, 0, 0);
    AddEdgeStep(s3, n + 1, n + 3, X);
    var s4 := AddEdge(s3, n + 1, n + 3);
    assert SameLook(s3, s4, n + 2);
    StepThen(st, s3, s4, m, {}, m, X, 0, Count(q));
    SetNodeStep(s4, n + 2, bodyId, X);
    var s5 := SetNode(s4, n + 2, bodyId);
    assert SameLook(s4, s5, n + 1) && SameLook(s4, s5, n + 3);
    StepThen(st, s4, s5, m, Only(!q, bodyId), m + Only(!q, bodyId), X, Count(q), 0);
    SetCurrentStep(s5, n + 2, X);
    var r := SetCurrent(s5, n + 2);
    assert SameLook(s5, r, n + 1) && SameLook(s5, r, n + 2) && SameLook(s5, r, n + 3);
    StepThen(st, s5, r, m + Only(!q, bodyId), {}, m + Only(!q, bodyId), X, Count(q), 0);
  }

  lemma EnterForInStep(st: State, s: Stmt, X: set<nat>)
    requires Wf(st) && OfCurrentFun(st, st.current) && s.ForIn? && Below(X, |st.blocks|)
    ensures var r, o := EnterForIn(st, s.id, s.right, s.body.id), Opened(CursorOf(st));
      LoopReady(st, r, EnterMissed(s, o), X, ForInBase(st) + 1, o.reached, o.reached, o.reached)
  {
    hide ForInInit, ForInIterator, ForInNext, ForInBase, Step, Reach, Wf, Look;
    var n, o := ForInBase(st), Opened(CursorOf(st));
    var Y := X + {n + 3};
    ForInInitStep(st, s.id, Y);
    var s1 := ForInInit(st, s.id);
    ForInIteratorStep(s1, n, s.right, Y);
    var s2 := ForInIterator(s1, n, s.right);
    var m, m2 := Only(!o.reached, s.id), Only(!o.reached, s.right);
    StepThen(st, s1, s2, m, m2, m + m2, Y, 0, 0);
    ForInNextStep(s2, n, s.right, s.body.id, Y);
    var r := ForInNext(s2, n, s.right, s.body.id);
    StepThen(st, s2, r, m + m2, m2 + Only(!o.reached, s.body.id), EnterMissed(s, o), Y, 0, Count(o.reached));
  }

  lemma LeaveLoopStep(st: State, cont: nat, after: nat, y: bool, X: set<nat>)
    requires Wf(st) && Look(st, st.current).mine && cont < |st.blocks| && after < |st.blocks|
    requires cont != st.current && after != st.current && after != cont
    requires Look(st, cont).mine && (CursorOf(st).reached ==> Look(st, cont).reached) && Look(st, after) == Fresh(y)
    ensures var r := LeaveLoop(st, cont, after);
      && Step(st, r, {}, X, Count(CursorOf(st).reached && CursorOf(st).open)) && Reach(r) == Reach(st)
      && r.current == after && Look(r, after) == Fresh(y)
  {
    hide JoinTo, SetCurrent, Step, Reach, Wf, Quiet;
    var w := Count(CursorOf(st).reached && CursorOf(st).open);
    JoinStep(st, cont, X);
    var s1 := JoinTo(st, cont);
    assert SameLook(st, s1, after);
    SetCurrentStep(s1, after, X);
    var s2 := SetCurrent(s1, after);
    assert SameLook(s1, s2, after);
    StepThen(st, s1, s2, {}, {}, {}, X, w, 0);
    var r := PopLoop(s2);
    SameGraphStep(s2, r, X);
    assert SameLook(s2, r, after);
    StepThen(st, s2, r, {}, {}, {}, X, w, 0);
  }

  // ----- jumps -----

  lemma SameVertices(x: seq<Vertex>, y: seq<Vertex>)
    requires |x| == |y| && forall i :: 0 <= i < |x| ==> x[i] == y[i]
    ensures x == y
  {
  }

  /** The current block leads to block `n`, which gets the jump. */
  function JumpBlock(st: State, n: nat, kind: InstructionKind, id: NodeId): (r: State)
    requires Wf(st) && n < |st.blocks|
    ensures Wf(r) && |st.blocks| <= |r.blocks|
  {
    AddEdge(AddInstruction(SetCurrent(st, n), kind, id), st.current, n)
  }

  /** It may as well get its edge before its instruction. */
  lemma EdgeFirst(st: State, n: nat, kind: InstructionKind, id: NodeId)
    requires Wf(st) && n < |st.blocks| && n != st.current && st.blocks[n].after == []
    ensures JumpBlock(st, n, kind, id) == AppendCode(AddEdge(SetCurrent(st, n), st.current, n), kind, id)
  {
    SameVertices(JumpBlock(st, n, kind, id).blocks,
                 AppendCode(AddEdge(SetCurrent(st, n), st.current, n), kind, id).blocks);
  }

  lemma JumpBlockStep(st: State, n: nat, kind: InstructionKind, id: NodeId, X: set<nat>)
    requires Wf(st) && OfCurrentFun(st, st.current) && n < |st.blocks| && n != st.current && n !in X
    requires Look(st, n) == Fresh(false)
    ensures var r, q := JumpBlock(st, n, kind, id), CursorOf(st).reached;
      && Step(st, r, Only(!q, id), X, 0) && Reach(r) == Reach(st) + ReachedIf(q, n)
      && r.current == n && Look(r, n) == Started(q) && r.funs == st.funs
      && (forall x: nat :: x < |st.blocks| && x != n && x != st.current ==> SameLook(st, r, x))
  {
    hide JumpBlock, AppendCode, AddEdge, SetCurrent, Step, Reach, Wf, Quiet;
    EdgeFirst(st, n, kind, id);
    var q := CursorOf(st).reached;
    SetCurrentStep(st, n, X);
    var s1 := SetCurrent(st, n);
    assert SameLook(st, s1, n) && SameLook(st, s1, st.current);
    AddEdgeStep(s1, st.current, n, X);
    var s2 := AddEdge(s1, st.current, n);
    StepThen(st, s1, s2, {}, {}, {}, X, 0, 0);
    AppendCodeStep(s2, kind, id, X);
    var r := AppendCode(s2, kind, id);
    StepThen(st, s2, r, {}, Only(!q, id), Only(!q, id), X, 0, 0);
    forall x: nat | x < |st.blocks| && x != n && x != st.current
      ensures SameLook(st, r, x)
    {
      assert SameLook(st, s1, x) && SameLook(s1, s2, x) && SameLook(s2, r, x);
    }
    SameFuns(st, n, kind, id);
  }

  lemma SameFuns(st: State, n: nat, kind: InstructionKind, id: NodeId)
    requires Wf(st) && n < |st.blocks| && st.blocks[n].after == []
    ensures JumpBlock(st, n, kind, id).funs == st.funs && JumpBlock(st, n, kind, id).current == n
  {
  }

  /** And from there to the target. */
  lemma JumpStep(st: State, n: nat, kind: InstructionKind, id: NodeId, target: nat, X: set<nat>)
    requires Wf(st) && OfCurrentFun(st, st.current) && n < |st.blocks| && n != st.current && n !in X
    requires Look(st, n) == Fresh(false)
    requires target < |st.blocks| && target != n && target != st.current && Look(st, target).mine
    requires CursorOf(st).reached ==> Look(st, target).reached || (Look(st, target) == Fresh(false) && target in X)
    ensures var r, q := AddEdge(JumpBlock(st, n, kind, id), n, target), CursorOf(st).reached;
      && Step(st, r, Only(!q, id), X, Count(q)) && r.current == n
      && Reach(r) == Reach(st) + ReachedIf(q, n) + ReachedIf(q, target) && Look(r, n).reached == q && !Look(r, n).open
      && (forall x: nat :: x < |st.blocks| && x != n && x != st.current && x != target ==> SameLook(st, r, x))
  {
    hide JumpBlock, AddEdge, Step, Reach, Wf;
    var q := CursorOf(st).reached;
    JumpBlockStep(st, n, kind, id, X);
    var s := JumpBlock(st, n, kind, id);
    assert SameLook(st, s, target);
    AddEdgeStep(s, n, target, X);
    var r := AddEdge(s, n, target);
    StepThen(st, s, r, Only(!q, id), {}, Only(!q, id), X, 0, Count(q));
    forall x: nat | x < |st.blocks| && x != n && x != st.current && x != target
      ensures SameLook(st, r, x)
    {
      assert SameLook(st, s, x) && SameLook(s, r, x);
    }
  }

  lemma BuildJumpStep(st: State, id: NodeId, target: nat, X: set<nat>)
    requires Wf(st) && OfCurrentFun(st, st.current) && Below(X, |st.blocks|)
    requires target < |st.blocks| && target != st.current && Look(st, target).mine
    requires CursorOf(st).reached ==> Look(st, target).reached || (Look(st, target) == Fresh(false) && target in X)
    ensures var r, q, n := BuildJump(st, id, target), CursorOf(st).reached, |st.blocks|;
      && Step(st, r, Only(!q, id), X, Count(q)) && CursorOf(r) == Cursor(q, false)
      && Reach(r) == Reach(st) + ReachedIf(q, n) + ReachedIf(q, target)
  {
    hide AddBlock, JumpBlock, AddEdge, Step, Reach, Wf;
    var q, n := CursorOf(st).reached, |st.blocks|;
    NewBlockStep(st, X);
    var s := AddBlock(st);
    assert SameLook(st, s, st.current) && SameLook(st, s, target);
    JumpStep(s, n, Branch, id, target, X);
    assert BuildJump(st, id, target) == AddEdge(JumpBlock(s, n, Branch, id), n, target) by {
      BuildJumpIs(st, id, target);
    }
    StepThen(st, s, BuildJump(st, id, target), {}, Only(!q, id), Only(!q, id), X, 0, Count(q));
  }

  lemma BuildJumpIs(st: State, id: NodeId, target: nat)
    requires Wf(st) && target < |st.blocks|
    ensures BuildJump(st, id, target) == AddEdge(JumpBlock(AddBlock(st), |st.blocks|, Branch, id), |st.blocks|, target)
  {
  }

  lemma BuildReturnIs(st: State, id: NodeId)
    requires Wf(st)
    ensures var n := |st.blocks|;
      BuildReturn(st, id) ==
        SetCurrent(AddEdge(JumpBlock(AddBlock(AddBlock(st)), n, Jump, id), n, EndOf(st)), n + 1)
  {
    var n := |st.blocks|;
    var s := AddBlock(AddBlock(st));
    SameFuns(s, n, Jump, id);
    assert s.funs[CurrentFun(s)].end == EndOf(st);
  }

  lemma BuildReturnStep(st: State, id: NodeId, X: set<nat>)
    requires Wf(st) && OfCurrentFun(st, st.current) && Below(X, |st.blocks|)
    requires EndOf(st) != st.current && Look(st, EndOf(st)).mine && EndOf(st) in X
    requires CursorOf(st).reached ==> Look(st, EndOf(st)).reached || Look(st, EndOf(st)) == Fresh(false)
    ensures var r, q, n := BuildReturn(st, id), CursorOf(st).reached, |st.blocks|;
      && Step(st, r, Only(!q, id), X, Count(q)) && CursorOf(r) == Cursor(false, true)
      && Reach(r) == Reach(st) + ReachedIf(q, n) + ReachedIf(q, EndOf(st))
  {
    hide AddBlock, JumpBlock, AddEdge, SetCurrent, Step, Reach, Wf;
    var q, n, end := CursorOf(st).reached, |st.blocks|, EndOf(st);
    NewBlockStep(st, X);
    var a := AddBlock(st);
    NewBlockStep(a, X);
    var s := AddBlock(a);
    StepThen(st, a, s, {}, {}, {}, X, 0, 0);
    assert SameLook(st, a, st.current) && SameLook(st, a, end);
    assert SameLook(a, s, st.current) && SameLook(a, s, end) && SameLook(a, s, n);
    JumpStep(s, n, Jump, id, end, X);
    var t := AddEdge(JumpBlock(s, n, Jump, id), n, end);
    StepThen(st, s, t, {}, Only(!q, id), Only(!q, id), X, 0, Count(q));
    assert SameLook(s, t, n + 1);
    SetCurrentStep(t, n + 1, X);
    var r := SetCurrent(t, n + 1);
    assert SameLook(t, r, n + 1);
    StepThen(st, t, r, Only(!q, id), {}, Only(!q, id), X, Count(q), 0);
    BuildReturnIs(st, id);
  }

  // ----- functions -----

  lemma BeginFunctionReach(st: State, id: NodeId)
    requires Wf(st) || st == EMPTY
    ensures Reach(BeginFunction(st, id)) == Reach(st) + {|st.blocks|}
  {
    hide Reach;
    var r, n := BeginFunction(st, id), |st.blocks|;
    ReachWithin(st);
    if st != EMPTY {
      ReachIsClosed(st);
    }
    ReachIsClosed(r);
    assert r.funs[|st.funs|].start == n;
    forall b | 0 <= b < n
      ensures r.blocks[b] == st.blocks[b]
    {}
    if st != EMPTY {
      ReachGrew(st, r, {n});
    } else {
      ReachIsLeast(r, {n});
    }
  }

  /** The new function's start is reached; nothing else changes. */
  lemma BeginFunctionStep(st: State, id: NodeId)
    requires Good(st) || st == EMPTY
    ensures var r, n := BeginFunction(st, id), |st.blocks|;
      && Missed(r) == Missed(st) && CursorOf(r) == START && Look(r, n + 1) == Fresh(false) && Own(r, |st.funs|) == {n}
      && EndOf(r) == n + 1 && Reach(r) == Reach(st) + {n}
      && forall j: nat, Y: set<nat> {:trigger Weight(r, j, Y)} :: j < |st.funs| ==> Weight(r, j, Y) == Weight(st, j, Y)
  {
    hide Reach, Missed, Dual, Weight;
    var r, n := BeginFunction(st, id), |st.blocks|;
    BeginFunctionReach(st, id);
    ReachWithin(st);
    MissedMore(st, r, n);
    forall j: nat, Y: set<nat> | j < |st.funs|
      ensures Weight(r, j, Y) == Weight(st, j, Y)
    {
      assert Own(r, j) == Own(st, j);
      WeightSame(st, r, j, Y);
    }
    assert Own(r, |st.funs|) == {n} by {
      if st != EMPTY { FunsKnown(st); }
    }
  }

  lemma FunsKnown(st: State)
    requires Good(st)
    ensures forall b: nat :: b < |st.blocks| ==> st.blocks[b].fn < |st.funs|
  {
    forall b: nat | b < |st.blocks|
      ensures st.blocks[b].fn < |st.funs|
    {
      assert BlockOwned(st, b);
    }
  }

  lemma MissedMore(st: State, r: State, n: nat)
    requires n == |st.blocks| <= |r.blocks| && Reach(r) == Reach(st) + {n}
    requires forall b :: 0 <= b < n ==> r.blocks[b] == st.blocks[b]
    requires forall b :: n <= b < |r.blocks| ==> Nodes(r.blocks[b]) == {}
    ensures Missed(r) == Missed(st)
  {
    hide Reach, Nodes;
  }

  /** The paths, the missed nodes and the weights are a matter of the graph alone. */
  lemma SameGraphSame(st: State, r: State)
    requires Wf(st) && Wf(r) && r.blocks == st.blocks && r.funs == st.funs
    ensures Reach(r) == Reach(st) && Missed(r) == Missed(st)
    ensures forall j: nat, Y: set<nat> {:trigger Weight(r, j, Y)} :: Weight(r, j, Y) == Weight(st, j, Y)
  {
    hide Reach, Missed, Weight;
    SameEdgesReach(st, r);
    MissedSame(st, r);
    forall j: nat, Y: set<nat>
      ensures Weight(r, j, Y) == Weight(st, j, Y)
    {
      ReachWithin(st);
      WeightSame(st, r, j, Y);
    }
  }

  /** The edge to a function's end, which counts once a path leads there. */
  lemma CloseFunctionStep(st: State)
    requires Wf(st) && Look(st, st.current).mine && st.current != EndOf(st)
    requires Look(st, EndOf(st)) == Fresh(Look(st, EndOf(st)).reached)
    ensures var r, q := AddEdge(st, st.current, EndOf(st)), CursorOf(st).reached;
      && Step(st, r, {}, {}, Count(q && Look(st, EndOf(st)).reached))
      && Reach(r) == Reach(st) + ReachedIf(q, EndOf(st))
  {
    AddEdgeStep(st, st.current, EndOf(st), {});
  }

  lemma LeaveFunctionStep(st: State, back: nat)
    requires Wf(st) && |st.stack| >= 2 && back < |st.blocks| && Look(st, st.current).mine
    requires st.current != EndOf(st) && Look(st, EndOf(st)) == Fresh(Look(st, EndOf(st)).reached)
    ensures var r, q, k := LeaveFunction(st, back), CursorOf(st).reached, CurrentFun(st);
      && Missed(r) == Missed(st) && Reach(r) == Reach(st) + ReachedIf(q, EndOf(st))
      && Weight(r, k, {}) == Weight(st, k, {}) + Count(q && Look(st, EndOf(st)).reached)
      && (forall j: nat, Y: set<nat> {:trigger Weight(r, j, Y)} ::
            j < |st.funs| && j != k ==> Weight(r, j, Y) == Weight(st, j, Y))
      && (forall b: nat :: b < |st.blocks| && b != st.current ==> r.blocks[b].after == st.blocks[b].after)
      && r.current == back && |r.funs| == |st.funs|
  {
    hide Reach, Missed, Weight, AddEdge, Quiet;
    CloseFunctionStep(st);
    EdgeView(st, st.current, EndOf(st));
    SameGraphSame(AddEdge(st, st.current, EndOf(st)), LeaveFunction(st, back));
  }
}
