/** What whole statements and programs add to the report. */
module CfgTelling {
  import opened Options
  import opened CfgSyntax
  import opened CfgGraph
  import opened CfgGrowth
  import opened CfgInvariant
  import opened CfgTold

  /** The targets of jumps hold nothing that could be told, and are not being built. */
  ghost predicate Targets(st: State, inLoop: bool)
    requires Wf(st)
  {
    && (inLoop ==> st.brk != [] && st.cont != [])
    && (st.brk != [] ==> Last(st.brk) < |st.blocks| && Last(st.brk) != st.current && Quiet(st, Last(st.brk)))
    && (st.cont != [] ==> HasWayIn(st, Last(st.cont)))
    && EndOf(st) != st.current && Quiet(st, EndOf(st))
  }

  /** From `st` to `r` these nodes were told; of the older blocks only the targets of
      jumps gained a way in. */
  ghost predicate Outcome(st: State, r: State, told: set<NodeId>, lost: bool, breaks: bool)
    requires Wf(st)
  {
    && Wf(r) && Told(r) == Told(st) + told && Lost(r) == lost
    && (forall x: nat :: x < |st.blocks| ==> (IsStart(r, x) <==> IsStart(st, x)))
    && (forall x: nat :: x < |st.blocks| && HasWayIn(st, x) ==> HasWayIn(r, x))
    && (forall x: nat :: x < |st.blocks| && HasWayIn(r, x) ==>
          HasWayIn(st, x) || x == EndOf(st) || (breaks && st.brk != [] && x == Last(st.brk)))
    && (breaks && st.brk != [] ==> HasWayIn(r, Last(st.brk)))
  }

  lemma QuietKept(st: State, r: State, m: set<NodeId>, b: nat)
    requires Wf(st) && Grew(|st.blocks|, st.current, m, st, r) && b < |st.blocks| && b != st.current && Quiet(st, b)
    ensures b < |r.blocks| && Quiet(r, b) && b != r.current && r.blocks[b].after == st.blocks[b].after
  {
    if !Quiet(r, b) {
      var n := ReportNode(r.blocks[b]).value;
      assert Mentions(r.blocks[b], n);
      assert false;
    }
  }

  lemma EndKept(st: State, r: State)
    requires Wf(st) && Wf(r) && FunsKept(st, r) && r.stack == st.stack
    ensures EndOf(r) == EndOf(st)
  {
  }

  lemma TargetsKept(st: State, r: State, m: set<NodeId>, inLoop: bool)
    requires Wf(st) && Wf(r) && Targets(st, inLoop) && Grew(|st.blocks|, st.current, m, st, r)
    requires r.stack == st.stack && r.brk == st.brk && r.cont == st.cont
    requires forall x: nat :: x < |st.blocks| && HasWayIn(st, x) ==> HasWayIn(r, x)
    ensures Targets(r, inLoop)
  {
    EndKept(st, r);
    QuietKept(st, r, m, EndOf(st));
    if st.brk != [] {
      QuietKept(st, r, m, Last(st.brk));
    }
    hide Quiet, HasWayIn, NodesGrew, EdgesGrew;
    if st.cont != [] {
      LastInRange(st.cont, |st.blocks|);
    }
  }

  lemma LastInRange(s: seq<nat>, n: nat)
    requires InRange(s, n) && s != []
    ensures Last(s) < n
  {
  }

  // ----- leaves -----

  /** The ways in after a jump, and all blocks but the new one as they were. */
  ghost predicate Jumped(st: State, r: State, target: nat)
    requires Wf(st)
  {
    var n := |st.blocks|;
    && st.current < n < |r.blocks| && |r.funs| == |st.funs|
    && (forall f :: 0 <= f < |st.funs| ==> r.funs[f].start == st.funs[f].start)
    && (forall b :: 0 <= b < n ==> ReportNode(r.blocks[b]) == ReportNode(st.blocks[b]))
    && (forall b :: 0 <= b < n && b != st.current ==> r.blocks[b].after == st.blocks[b].after)
    && r.blocks[st.current].after == st.blocks[st.current].after + [n] && r.blocks[n].after == [target]
    && (forall b :: n < b < |r.blocks| ==> r.blocks[b].after == [] && ReportNode(r.blocks[b]) == None)
  }

  lemma JumpedWays(st: State, r: State, target: nat)
    requires Wf(st) && target < |st.blocks| && Jumped(st, r, target)
    ensures forall x: nat :: HasWayIn(r, x) <==> HasWayIn(st, x) || x == |st.blocks| || x == target
    ensures forall x: nat :: IsStart(r, x) <==> IsStart(st, x)
  {
    var n := |st.blocks|;
    forall x: nat
      ensures HasWayIn(r, x) <==> HasWayIn(st, x) || x == n || x == target
    {
      assert n in r.blocks[st.current].after && target in r.blocks[n].after;
      if HasWayIn(st, x) {
        var a :| 0 <= a < n && x in st.blocks[a].after;
        assert x in r.blocks[a].after;
      }
      if HasWayIn(r, x) {
        var a :| 0 <= a < |r.blocks| && x in r.blocks[a].after;
        assert a > n || a == n || (a == st.current && x == n) || x in st.blocks[a].after;
      }
    }
    forall x: nat
      ensures IsStart(r, x) <==> IsStart(st, x)
    {
      assert forall f :: 0 <= f < |st.funs| ==> r.funs[f].start == st.funs[f].start;
    }
  }

  lemma JumpedTold(st: State, r: State, target: nat)
    requires Wf(st) && target < |st.blocks| && Jumped(st, r, target)
    requires Quiet(st, target) || HasWayIn(st, target)
    ensures Told(r) == Told(st)
  {
    hide HasWayIn, IsStart, Wf, ReportNode;
    JumpedWays(st, r, target);
    NothingTold(st, r);
  }

  lemma JumpJumps(st: State, id: NodeId, target: nat)
    requires Wf(st) && target < |st.blocks|
    ensures var r := BuildJump(st, id, target);
      Jumped(st, r, target) && r.current == |st.blocks| < |r.blocks| && r.blocks[r.current].after != []
  {
  }

  lemma EdgeView(st: State, a: nat, b: nat)
    requires Wf(st) && a < |st.blocks| && b < |st.blocks|
    ensures var r := AddEdge(st, a, b);
      && |r.blocks| == |st.blocks| && r.current == st.current && r.funs == st.funs
      && (forall x :: 0 <= x < |st.blocks| ==> ReportNode(r.blocks[x]) == ReportNode(st.blocks[x]))
      && (forall x :: 0 <= x < |st.blocks| && x != a ==> r.blocks[x].after == st.blocks[x].after)
      && r.blocks[a].after == st.blocks[a].after + [b]
  {
  }

  lemma ReturnJumps(st: State, id: NodeId)
    requires Wf(st)
    ensures var r := BuildReturn(st, id);
      && Jumped(st, r, EndOf(st)) && r.current == |st.blocks| + 1 < |r.blocks|
      && r.blocks[r.current].after == [] && Quiet(r, r.current)
  {
    hide AddEdge;
    var n, end := |st.blocks|, EndOf(st);
    var s1 := AddInstruction(SetCurrent(AddBlock(AddBlock(st)), n), Jump, id);
    EndKept(st, s1);
    EdgeView(s1, st.current, n);
    var s2 := AddEdge(s1, st.current, n);
    EdgeView(s2, n, end);
  }

  lemma JumpTold(st: State, id: NodeId, target: nat, breaks: bool)
    requires Wf(st) && target < |st.blocks|
    requires Quiet(st, target) || HasWayIn(st, target)
    requires if breaks then st.brk != [] && target == Last(st.brk) else HasWayIn(st, target)
    ensures Outcome(st, BuildJump(st, id, target), {}, true, breaks)
  {
    hide HasWayIn, IsStart, Told, BuildJump, ReportNode, Jumped;
    var r := BuildJump(st, id, target);
    JumpJumps(st, id, target);
    JumpedWays(st, r, target);
    JumpedTold(st, r, target);
  }

  lemma ReturnTold(st: State, id: NodeId)
    requires Wf(st) && Quiet(st, EndOf(st))
    ensures Outcome(st, BuildReturn(st, id), {}, true, false)
  {
    hide HasWayIn, IsStart, Told, BuildReturn, ReportNode, Jumped;
    var r, n := BuildReturn(st, id), |st.blocks|;
    ReturnJumps(st, id);
    NotYetAStart(st, n + 1);
    JumpedWays(st, r, EndOf(st));
    JumpedTold(st, r, EndOf(st));
  }

  lemma NotYetAStart(st: State, b: nat)
    requires Wf(st) && b >= |st.blocks|
    ensures !IsStart(st, b) && !HasWayIn(st, b)
  {
    assert forall f :: 0 <= f < |st.funs| ==> FunInRange(st.funs[f], |st.blocks|);
    assert forall a :: 0 <= a < |st.blocks| ==> BlockInRange(st.blocks[a], |st.blocks|);
  }

  lemma LeafTold(s: Stmt, st: State, inLoop: bool)
    requires Wf(st) && Targets(st, inLoop) && WellNested(s, inLoop) && !IsNested(s) && !s.Block? && Build(s, st).Ok?
    ensures Outcome(st, Build(s, st).value, ReportedBy(s, Lost(st)), LostAfter(s, Lost(st)), BreaksOut(s))
  {
    hide BuildJump, BuildReturn, AddInstruction, HasWayIn, IsStart, Told, Quiet;
    match s
    case Plain(_) =>
    case Simple(id, kind) => AddInstructionTold(st, kind, id);
    case Break(id) => JumpTold(st, id, Last(st.brk), true);
    case Continue(id) =>
      LastInRange(st.cont, |st.blocks|);
      JumpTold(st, id, Last(st.cont), false);
    case Return(id) => ReturnTold(st, id);
  }

  // ----- entering a statement -----

  /** Entered, with its child about to be built in a fresh place. */
  ghost predicate EnteredTold(st: State, inner: State, told: set<NodeId>)
    requires Wf(st)
  {
    && Wf(inner) && Told(inner) == Told(st) + told && !Lost(inner) && |st.blocks| <= |inner.blocks|
    && (forall x: nat :: x < |st.blocks| ==> (IsStart(inner, x) <==> IsStart(st, x)))
    && SameWaysBelow(st, inner, |st.blocks|)
  }

  /** A block that waits for the end of a branch or a loop. */
  predicate Waits(st: State, b: nat) {
    b < |st.blocks| && Quiet(st, b) && st.blocks[b].after == [] && !IsStart(st, b)
  }

  lemma SameGraphTold(st: State, r: State)
    requires r.blocks == st.blocks && r.funs == st.funs
    ensures Told(r) == Told(st) && SameWays(st, r) && SameStarts(st, r)
    ensures forall b: nat :: b < |st.blocks| ==>
              (Quiet(r, b) <==> Quiet(st, b)) && (Untouched(r, b) <==> Untouched(st, b))
  {
    assert SameWays(st, r);
    assert SameStarts(st, r);
  }

  lemma EnterIfTold(st: State, id: NodeId, cond: Expr, impl: Expr, consId: NodeId, alt: Else)
    requires Wf(st)
    ensures var n, r := |st.blocks|, EnterIf(st, id, cond, impl, consId, alt);
      && EnteredTold(st, r, Only(Lost(st), id) + Only(ConstantFalse(impl), consId)
                            + (if alt.ElseClause? then Only(ConstantTrue(impl), alt.id) else {}))
      && r.current == n + 1 && Waits(r, n + 3) && (HasWayIn(r, n + 3) <==> alt.NoElse?)
      && n + 2 < |r.blocks| && r.blocks[n + 2].after == []
  {
    hide HasWayIn, IsStart, Told, AddBlock, EnterCondition, EnterBranches, Quiet, ConstantTrue, ConstantFalse;
    var n := |st.blocks|;
    NewBlocksTold(st);
    var s0 := AddBlock(AddBlock(AddBlock(AddBlock(st))));
    ConditionTold(s0, id, n, cond.id);
    var s1 := EnterCondition(s0, id, n, cond.id);
    assert SameView(s0, s1, n + 1) && SameView(s0, s1, n + 2) && SameView(s0, s1, n + 3);
    BranchesTold(s1, n, impl, consId, alt);
  }

  lemma WhileBranchesTold(st: State, n: nat, impl: Expr, bodyId: NodeId)
    requires Wf(st) && st.current == n && n + 3 <= |st.blocks| && Untouched(st, n + 1) && Untouched(st, n + 2)
    ensures var r := WhileBranches(st, n, impl, bodyId);
      && Told(r) == Told(st) + Only(ConstantFalse(impl), bodyId) && SameStarts(st, r) && |r.blocks| == |st.blocks|
      && (forall x: nat :: x <= n ==> (HasWayIn(r, x) <==> HasWayIn(st, x)))
      && r.current == n + 1 && !Lost(r) && Waits(r, n + 2) && (HasWayIn(r, n + 2) <==> !ConstantTrue(impl))
  {
    hide HasWayIn, IsStart, Told, AddEdge, SetNode, SetCurrent, Quiet, Wf, EdgeUnless, ConstantTrue, ConstantFalse;
    var s1 := if ConstantTrue(impl) then st else AddEdge(st, n, n + 2);
    if !ConstantTrue(impl) {
      AddEdgeTold(st, n, n + 2);
      assert SameView(st, s1, n + 1) && SameView(st, s1, n + 2);
    }
    EdgeUnlessTold(s1, ConstantFalse(impl), n + 1, bodyId);
    var s2 := SetNode(EdgeUnless(s1, ConstantFalse(impl), n + 1), n + 1, bodyId);
    assert SameView(s1, s2, n + 2);
    SetCurrentTold(s2, n + 1);
    var r := SetCurrent(s2, n + 1);
    assert SameView(s2, r, n + 1) && SameView(s2, r, n + 2);
  }

  lemma EnterWhileTold(st: State, id: NodeId, cond: Expr, impl: Expr, bodyId: NodeId)
    requires Wf(st)
    ensures var n, r := |st.blocks|, EnterWhile(st, id, cond, impl, bodyId);
      && EnteredTold(st, r, Only(Lost(st), id) + Only(ConstantFalse(impl), bodyId))
      && r.current == n + 1 && Waits(r, n + 2) && (HasWayIn(r, n + 2) <==> !ConstantTrue(impl)) && HasWayIn(r, n)
  {
    hide HasWayIn, IsStart, Told, AddBlock, EnterCondition, WhileBranches, Quiet, ConstantTrue, ConstantFalse;
    var n := |st.blocks|;
    NewBlocksTold(st);
    var s := AddBlock(AddBlock(AddBlock(st)));
    var s0 := PushLoop(s, n, n + 2);
    SameGraphTold(s, s0);
    assert Untouched(s0, n) && Untouched(s0, n + 1) && Untouched(s0, n + 2);
    ConditionTold(s0, id, n, cond.id);
    var s1 := EnterCondition(s0, id, n, cond.id);
    assert SameView(s0, s1, n + 1) && SameView(s0, s1, n + 2);
    WhileBranchesTold(s1, n, impl, bodyId);
  }

  lemma ForInInitTold(st: State, id: NodeId)
    requires Wf(st)
    ensures var n, r := ForInBase(st), ForInInit(st, id);
      && Told(r) == Told(st) + Only(Lost(st), id) && SameStarts(st, r)
      && SameWaysBelow(st, r, |st.blocks|) && HasWayIn(r, n) && Quiet(r, n) && r.blocks[n].after == []
      && Untouched(r, n + 1) && Untouched(r, n + 2) && Untouched(r, n + 3)
  {
    hide HasWayIn, IsStart, Told, AddBlock, AddInstruction, AddEdge, SetCurrent, Quiet, Wf, ForInBase;
    var n := ForInBase(st);
    AddInstructionTold(st, Branch, id);
    var s0 := AddInstruction(st, Branch, id);
    assert |s0.blocks| == n by { ForInBaseIs(st, id); }
    NewBlocksTold(s0);
    var s := AddBlock(AddBlock(AddBlock(AddBlock(s0))));
    var s1 := PushLoop(s, n + 1, n + 3);
    SameGraphTold(s, s1);
    assert Untouched(s1, n) && Untouched(s1, n + 1) && Untouched(s1, n + 2) && Untouched(s1, n + 3);
    InBlocks(s0);
    AddEdgeTold(s1, s1.current, n);
    var s2 := AddEdge(s1, s1.current, n);
    assert SameView(s1, s2, n) && SameView(s1, s2, n + 1) && SameView(s1, s2, n + 2) && SameView(s1, s2, n + 3);
    SetCurrentTold(s2, n);
    var r := SetCurrent(s2, n);
    assert SameView(s2, r, n) && SameView(s2, r, n + 1) && SameView(s2, r, n + 2) && SameView(s2, r, n + 3);
  }

  lemma ForInIteratorTold(st: State, n: nat, right: NodeId)
    requires Wf(st) && n + 4 <= |st.blocks| && st.current == n && HasWayIn(st, n) && st.blocks[n].after == []
    requires Untouched(st, n + 1) && Untouched(st, n + 2) && Untouched(st, n + 3)
    ensures var r := ForInIterator(st, n, right);
      && Told(r) == Told(st) && SameStarts(st, r) && SameWaysBelow(st, r, n) && r.current == n + 1
      && |r.blocks| >= |st.blocks|
      && HasWayIn(r, n + 1) && r.blocks[n + 1].after == [] && Untouched(r, n + 2) && Untouched(r, n + 3)
  {
    hide HasWayIn, IsStart, Told, AddInstruction, AddEdge, SetCurrent, Quiet, Wf;
    AddInstructionTold(st, Assign, right);
    var s1 := AddInstruction(st, Assign, right);
    assert SameView(st, s1, n + 1) && SameView(st, s1, n + 2) && SameView(st, s1, n + 3);
    AddEdgeTold(s1, n, n + 1);
    var s2 := AddEdge(s1, n, n + 1);
    assert SameView(s1, s2, n + 1) && SameView(s1, s2, n + 2) && SameView(s1, s2, n + 3);
    SetCurrentTold(s2, n + 1);
    var r := SetCurrent(s2, n + 1);
    assert SameView(s2, r, n + 1) && SameView(s2, r, n + 2) && SameView(s2, r, n + 3);
  }

  lemma ForInNextTold(st: State, n: nat, right: NodeId, bodyId: NodeId)
    requires Wf(st) && n + 4 <= |st.blocks| && st.current == n + 1
    requires HasWayIn(st, n + 1) && st.blocks[n + 1].after == []
    requires Untouched(st, n + 2) && Untouched(st, n + 3)
    ensures var r := ForInNext(st, n, right, bodyId);
      && Told(r) == Told(st) && SameStarts(st, r) && |r.blocks| >= |st.blocks|
      && (forall x: nat :: x < n + 2 ==> (HasWayIn(r, x) <==> HasWayIn(st, x)))
      && r.current == n + 2 && !Lost(r) && Waits(r, n + 3) && HasWayIn(r, n + 3)
  {
    hide HasWayIn, IsStart, Told, AddInstruction, AddEdge, SetNode, SetCurrent, Quiet, Wf;
    AddInstructionTold(st, Assign, right);
    var s1 := AddInstruction(st, Assign, right);
    assert SameView(st, s1, n + 2) && SameView(st, s1, n + 3);
    AddInstructionTold(s1, Branch, right);
    var s2 := AddInstruction(s1, Branch, right);
    assert SameView(s1, s2, n + 2) && SameView(s1, s2, n + 3);
    AddEdgeTold(s2, n + 1, n + 2);
    var s3 := AddEdge(s2, n + 1, n + 2);
    assert SameView(s2, s3, n + 2) && SameView(s2, s3, n + 3);
    AddEdgeTold(s3, s2.current, n + 3);
    var s4 := AddEdge(s3, s2.current, n + 3);
    assert SameView(s3, s4, n + 2) && SameView(s3, s4, n + 3);
    SetNodeTold(s4, n + 2, bodyId);
    var s5 := SetNode(s4, n + 2, bodyId);
    assert SameView(s4, s5, n + 3);
    SetCurrentTold(s5, n + 2);
    var r := SetCurrent(s5, n + 2);
    assert SameView(s5, r, n + 2) && SameView(s5, r, n + 3);
  }

  lemma EnterForInTold(st: State, id: NodeId, right: NodeId, bodyId: NodeId)
    requires Wf(st)
    ensures var n, r := ForInBase(st), EnterForIn(st, id, right, bodyId);
      && EnteredTold(st, r, Only(Lost(st), id))
      && r.current == n + 2 && Waits(r, n + 3) && HasWayIn(r, n + 3) && HasWayIn(r, n + 1)
  {
    hide HasWayIn, IsStart, Told, ForInInit, ForInIterator, ForInNext, ForInBase, Quiet, Wf, Lost;
    var n := ForInBase(st);
    ForInInitTold(st, id);
    ForInIteratorTold(ForInInit(st, id), n, right);
    ForInNextTold(ForInIterator(ForInInit(st, id), n, right), n, right, bodyId);
  }

  lemma BeginFunctionTold(st: State, id: NodeId)
    requires Wf(st)
    ensures var r, n := BeginFunction(st, id), |st.blocks|;
      && EnteredTold(st, r, {}) && r.current == n && EndOf(r) == n + 1 && Quiet(r, n + 1)
      && (forall b: nat :: b < n ==> SameView(st, r, b))
  {
    var r, n := BeginFunction(st, id), |st.blocks|;
    forall x: nat
      ensures HasWayIn(r, x) <==> HasWayIn(st, x)
    {
      assert forall a :: 0 <= a < n ==> r.blocks[a] == st.blocks[a];
    }
    forall x: nat | x < n
      ensures IsStart(r, x) <==> IsStart(st, x)
    {
      assert forall f :: 0 <= f < |st.funs| ==> r.funs[f] == st.funs[f];
    }
    assert r.funs[|st.funs|].start == n && IsStart(r, n);
    hide HasWayIn, IsStart;
  }

  // ----- leaving it -----

  /** One step that tells nothing and opens at most a way into block `b`. */
  ghost predicate Joins(st: State, r: State, b: nat) {
    && Told(r) == Told(st) && SameStarts(st, r)
    && (forall x: nat :: HasWayIn(st, x) ==> HasWayIn(r, x))
    && (forall x: nat :: HasWayIn(r, x) ==> HasWayIn(st, x) || x == b)
  }

  lemma JoinTold(st: State, b: nat)
    requires Wf(st) && b < |st.blocks| && (Quiet(st, b) || HasWayIn(st, b))
    ensures var r := JoinTo(st, b);
      && Joins(st, r, b) && SameViews(st, r, st.current) && r.current == st.current
      && (st.blocks[st.current].after == [] ==> HasWayIn(r, b))
  {
    hide HasWayIn, IsStart, Told, AddEdge, Quiet;
    if st.blocks[st.current].after == [] {
      AddEdgeTold(st, st.current, b);
    } else {
      forall x: nat | x < |st.blocks|
        ensures SameView(st, JoinTo(st, b), x)
      {
        SameViewAlways(st, x);
      }
    }
  }

  lemma LeaveIfTold(st: State, n: nat, alt: Else)
    requires Wf(st) && n + 4 <= |st.blocks| && Quiet(st, n + 3) && st.blocks[n + 3].after == []
    requires st.current != n + 3 && st.current != n + 2 && st.blocks[n + 2].after == []
    requires alt.NoElse? ==> HasWayIn(st, n + 3)
    ensures var r := LeaveIf(st, n, alt); Joins(st, r, n + 3) && !Lost(r)
  {
    hide HasWayIn, IsStart, Told, JoinTo, SetCurrent, Quiet, Wf;
    JoinTold(st, n + 3);
    var s1 := JoinTo(st, n + 3);
    assert SameView(st, s1, n + 2) && SameView(st, s1, n + 3);
    var s2 := s1;
    if alt.ElseClause? {
      SetCurrentTold(s1, n + 2);
      var s := SetCurrent(s1, n + 2);
      assert SameView(s1, s, n + 2) && SameView(s1, s, n + 3);
      JoinTold(s, n + 3);
      s2 := JoinTo(s, n + 3);
      assert SameView(s, s2, n + 3);
    }
    SetCurrentTold(s2, n + 3);
    var r := SetCurrent(s2, n + 3);
    assert SameView(s2, r, n + 3);
  }

  lemma LeaveLoopTold(st: State, cont: nat, after: nat)
    requires Wf(st) && cont < |st.blocks| && after < |st.blocks| && HasWayIn(st, cont)
    requires Quiet(st, after) && st.blocks[after].after == [] && after != st.current && !IsStart(st, after)
    ensures var r := LeaveLoop(st, cont, after);
      Joins(st, r, cont) && (Lost(r) <==> !HasWayIn(st, after))
  {
    hide HasWayIn, IsStart, Told, JoinTo, SetCurrent, Quiet, Wf;
    JoinTold(st, cont);
    var s1 := JoinTo(st, cont);
    assert SameView(st, s1, after);
    SetCurrentTold(s1, after);
    var s2 := SetCurrent(s1, after);
    assert SameView(s1, s2, after);
    SameGraphTold(s2, PopLoop(s2));
  }

  lemma LeaveFunctionTold(st: State, back: nat)
    requires Wf(st) && |st.stack| >= 2 && back < |st.blocks| && Quiet(st, EndOf(st))
    requires st.blocks[back].after == [] && !Quiet(st, back) && back != st.current
    ensures var r := LeaveFunction(st, back); Joins(st, r, EndOf(st)) && !Lost(r)
  {
    hide HasWayIn, IsStart, Told, AddEdge, Quiet;
    AddEdgeTold(st, st.current, EndOf(st));
    var s1 := AddEdge(st, st.current, EndOf(st));
    assert SameView(st, s1, back);
    SameGraphTold(s1, LeaveFunction(st, back));
  }

  // ----- statements -----

  /** What is known once the child is built. */
  lemma MidTold(st: State, inner: State, s1: State, told1: set<NodeId>, told2: set<NodeId>, lost: bool, breaks: bool)
    requires Wf(st) && EnteredTold(st, inner, told1) && Outcome(inner, s1, told2, lost, breaks)
    ensures Told(s1) == Told(st) + (told1 + told2)
    ensures forall x: nat :: x < |st.blocks| ==> (IsStart(s1, x) <==> IsStart(st, x))
    ensures forall x: nat :: x < |st.blocks| && HasWayIn(st, x) ==> HasWayIn(s1, x)
    ensures forall x: nat :: x < |st.blocks| && HasWayIn(s1, x) ==>
              HasWayIn(st, x) || x == EndOf(inner) || (breaks && inner.brk != [] && x == Last(inner.brk))
  {
    hide HasWayIn, IsStart, Told, Wf, Lost;
  }

  ghost predicate ChildTold(s: Stmt, st: State, inner: State, s1: State, inLoop: bool)
    requires IsNested(s)
  {
    && Wf(st) && Targets(st, inLoop) && Enter(s, st) == Ok(inner) && Grows(inner, s1)
    && Grew(|inner.blocks|, inner.current, Built(Child(s)), inner, s1)
    && Outcome(inner, s1, ReportedBy(Child(s), false), LostAfter(Child(s), false), BreaksOut(Child(s)))
  }

  /** The block that waits is still waiting when the child is built. */
  lemma StillWaits(inner: State, s1: State, m: set<NodeId>, b: nat, told: set<NodeId>, lost: bool, breaks: bool)
    requires Wf(inner) && Grew(|inner.blocks|, inner.current, m, inner, s1) && b != inner.current && Waits(inner, b)
    requires Outcome(inner, s1, told, lost, breaks)
    ensures Waits(s1, b) && b != s1.current
  {
    hide IsStart, Quiet, NodesGrew, EdgesGrew;
    QuietKept(inner, s1, m, b);
  }

  /** Leaving a branch adds no more than the way to the block behind it. */
  lemma BranchLeft(st: State, inner: State, s1: State, r: State, own: set<NodeId>, told: set<NodeId>, lost: bool,
      breaks: bool, after: nat)
    requires Wf(st) && EnteredTold(st, inner, own) && Outcome(inner, s1, told, lost, breaks)
    requires Wf(r) && Joins(s1, r, after) && after >= |st.blocks| && !Lost(r)
    requires EndOf(inner) == EndOf(st) && inner.brk == st.brk
    ensures Outcome(st, r, own + told, false, breaks)
  {
    hide HasWayIn, IsStart, Told, Wf, Lost;
    MidTold(st, inner, s1, own, told, lost, breaks);
    if st.brk != [] {
      BreakInRange(st);
    }
  }

  lemma BreakInRange(st: State)
    requires Wf(st) && st.brk != []
    ensures Last(st.brk) < |st.blocks|
  {
  }

  lemma IfTold(s: Stmt, st: State, inner: State, s1: State, inLoop: bool)
    requires s.If? && ChildTold(s, st, inner, s1, inLoop)
    ensures Outcome(st, Leave(s, st, s1), ReportedBy(s, Lost(st)), false, BreaksOut(s))
  {
    hide HasWayIn, IsStart, Told, EnterIf, LeaveIf, NodesGrew, EdgesGrew, ConstantTrue, ConstantFalse, Quiet, Lost,
        Outcome, Joins, Targets, Wf, SameWaysBelow;
    var n, impl := |st.blocks|, ConditionNode(s.cond).value;
    EnterIfTold(st, s.id, s.cond, impl, s.cons.id, s.alt);
    EnterGrew(s, st);
    EndSame(st, inner);
    var own := Only(Lost(st), s.id) + Only(ConstantFalse(impl), s.cons.id)
               + (if s.alt.ElseClause? then Only(ConstantTrue(impl), s.alt.id) else {});
    var told := ReportedBy(s.cons, false);
    StillWaits(inner, s1, Built(s.cons), n + 3, told, LostAfter(s.cons, false), BreaksOut(s.cons));
    StillOpen(inner, s1, Built(s.cons), n + 2);
    WaysKept(inner, s1, told, LostAfter(s.cons, false), BreaksOut(s.cons), n + 3);
    LeaveIfTold(s1, n, s.alt);
    BranchLeft(st, inner, s1, LeaveIf(s1, n, s.alt), own, told, LostAfter(s.cons, false), BreaksOut(s.cons), n + 3);
    assert ReportedBy(s, Lost(st)) == own + told;
  }

  lemma WaysKept(inner: State, s1: State, told: set<NodeId>, lost: bool, breaks: bool, b: nat)
    requires Wf(inner) && Outcome(inner, s1, told, lost, breaks) && b < |inner.blocks|
    ensures HasWayIn(inner, b) ==> HasWayIn(s1, b)
  {
    hide HasWayIn;
  }

  lemma StillOpen(inner: State, s1: State, m: set<NodeId>, b: nat)
    requires Wf(inner) && Grew(|inner.blocks|, inner.current, m, inner, s1) && b != inner.current
    requires b < |inner.blocks| && inner.blocks[b].after == []
    ensures b < |s1.blocks| && s1.blocks[b].after == [] && b != s1.current
  {
  }

  lemma EndSame(st: State, inner: State)
    requires Wf(st) && Wf(inner) && EdgesGrew(|st.blocks|, st.current, st, inner) && inner.stack == st.stack
    ensures EndOf(inner) == EndOf(st) < |st.blocks|
  {
    EndKept(st, inner);
  }

  lemma WhileTold(s: Stmt, st: State, inner: State, s1: State, inLoop: bool)
    requires s.While? && ChildTold(s, st, inner, s1, inLoop)
    ensures Outcome(st, Leave(s, st, s1), ReportedBy(s, Lost(st)), LostAfter(s, Lost(st)), BreaksOut(s))
  {
    hide HasWayIn, IsStart, Told, EnterWhile, LeaveLoop, NodesGrew, EdgesGrew, ConstantTrue, ConstantFalse, Quiet, Lost,
        Outcome, Joins, Targets, Wf, SameWaysBelow;
    var n, impl := |st.blocks|, ConditionNode(s.cond).value;
    EnterWhileTold(st, s.id, s.cond, impl, s.body.id);
    EnterGrew(s, st);
    EndSame(st, inner);
    var own := Only(Lost(st), s.id) + Only(ConstantFalse(impl), s.body.id);
    var told, lost, breaks := ReportedBy(s.body, false), LostAfter(s.body, false), BreaksOut(s.body);
    StillWaits(inner, s1, Built(s.body), n + 2, told, lost, breaks);
    WaysKept(inner, s1, told, lost, breaks, n);
    WaitedFor(inner, s1, told, lost, breaks, n + 2);
    LeaveLoopTold(s1, n, n + 2);
    LoopLeft(st, inner, s1, LeaveLoop(s1, n, n + 2), own, told, lost, breaks, n);
    assert ReportedBy(s, Lost(st)) == own + told;
  }

  /** The block behind a loop has a way in if it had one before its body was built, or if
      the body breaks. */
  lemma WaitedFor(inner: State, s1: State, told: set<NodeId>, lost: bool, breaks: bool, after: nat)
    requires Wf(inner) && Outcome(inner, s1, told, lost, breaks) && after < |inner.blocks|
    requires inner.brk != [] && Last(inner.brk) == after && EndOf(inner) != after
    ensures HasWayIn(s1, after) <==> HasWayIn(inner, after) || breaks
  {
    hide HasWayIn;
  }

  /** Leaving a loop adds no more than the way back to its condition. */
  lemma LoopLeft(st: State, inner: State, s1: State, r: State, own: set<NodeId>, told: set<NodeId>, lost: bool,
      breaks: bool, cont: nat)
    requires Wf(st) && EnteredTold(st, inner, own) && Outcome(inner, s1, told, lost, breaks)
    requires Wf(r) && Joins(s1, r, cont) && cont >= |st.blocks|
    requires EndOf(inner) == EndOf(st) && inner.brk != [] && Last(inner.brk) >= |st.blocks|
    ensures Outcome(st, r, own + told, Lost(r), false)
  {
    hide HasWayIn, IsStart, Told, Wf, Lost;
    MidTold(st, inner, s1, own, told, lost, breaks);
  }

  lemma ForInTold(s: Stmt, st: State, inner: State, s1: State, inLoop: bool)
    requires s.ForIn? && ChildTold(s, st, inner, s1, inLoop)
    ensures Outcome(st, Leave(s, st, s1), ReportedBy(s, Lost(st)), false, BreaksOut(s))
  {
    hide HasWayIn, IsStart, Told, EnterForIn, LeaveLoop, NodesGrew, EdgesGrew, Quiet, Lost, ForInBase, Outcome, Joins,
        Targets, Wf, SameWaysBelow;
    var n := ForInBase(st);
    EnterForInTold(st, s.id, s.right, s.body.id);
    EnterGrew(s, st);
    EndSame(st, inner);
    var told, lost, breaks := ReportedBy(s.body, false), LostAfter(s.body, false), BreaksOut(s.body);
    StillWaits(inner, s1, Built(s.body), n + 3, told, lost, breaks);
    WaysKept(inner, s1, told, lost, breaks, n + 1);
    WaitedFor(inner, s1, told, lost, breaks, n + 3);
    LeaveLoopTold(s1, n + 1, n + 3);
    LoopLeft(st, inner, s1, LeaveLoop(s1, n + 1, n + 3), Only(Lost(st), s.id), told, lost, breaks, n + 1);
    assert ReportedBy(s, Lost(st)) == Only(Lost(st), s.id) + told;
  }

  lemma FunctionTold(s: Stmt, st: State, inner: State, s1: State, inLoop: bool)
    requires s.Function? && ChildTold(s, st, inner, s1, inLoop) && !BreaksOut(s.body)
    ensures Outcome(st, Leave(s, st, s1), ReportedBy(s, Lost(st)), false, false)
  {
    hide HasWayIn, IsStart, Told, AddInstruction, BeginFunction, LeaveFunction, NodesGrew, EdgesGrew, Quiet, Lost,
        Outcome, Joins, EnteredTold, Targets, Wf, SameWays, SameStarts, SameViews;
    var outer := AddInstruction(st, Assign, s.id);
    var back := outer.current;
    FunctionEntered(st, s.id);
    var told := ReportedBy(s.body, false);
    QuietKept(inner, s1, Built(s.body), EndOf(inner));
    EndSame(inner, s1);
    StillLoud(inner, s1, Built(s.body), back);
    LeaveFunctionTold(s1, back);
    FunctionLeft(st, outer, inner, s1, LeaveFunction(s1, back), s.id, told, LostAfter(s.body, false));
    assert ReportedBy(s, Lost(st)) == Only(Lost(st), s.id) + told;
  }

  /** The function's own instruction, and its fresh start and end. */
  lemma FunctionEntered(st: State, id: NodeId)
    requires Wf(st)
    ensures var outer := AddInstruction(st, Assign, id);
            var inner := BeginFunction(outer, id);
      && Told(outer) == Told(st) + Only(Lost(st), id) && SameWays(st, outer) && SameStarts(st, outer)
      && Wf(inner) && |inner.stack| >= 2 && EnteredTold(outer, inner, {})
      && outer.current < |outer.blocks| && outer.current != inner.current
      && EndOf(inner) != inner.current && Quiet(inner, EndOf(inner)) && EndOf(inner) >= |outer.blocks|
      && outer.current < |inner.blocks| && inner.blocks[outer.current].after == [] && !Quiet(inner, outer.current)
  {
    hide HasWayIn, IsStart, Told, AddInstruction, BeginFunction, Quiet, Lost;
    AddInstructionTold(st, Assign, id);
    var outer := AddInstruction(st, Assign, id);
    BeginFunctionTold(outer, id);
    assert SameView(outer, BeginFunction(outer, id), outer.current);
  }

  lemma FunctionLeft(st: State, outer: State, inner: State, s1: State, r: State, id: NodeId, told: set<NodeId>,
      lost: bool)
    requires Wf(st) && Wf(outer) && EnteredTold(outer, inner, {}) && Outcome(inner, s1, told, lost, false)
    requires Told(outer) == Told(st) + Only(Lost(st), id) && SameWays(st, outer) && SameStarts(st, outer)
    requires |st.blocks| <= |outer.blocks| <= EndOf(inner)
    requires Wf(r) && Joins(s1, r, EndOf(inner)) && !Lost(r)
    ensures Outcome(st, r, Only(Lost(st), id) + told, false, false)
  {
    hide HasWayIn, IsStart, Told, Wf, Lost;
    FunctionMid(st, outer, inner, s1, id, told, lost);
  }

  lemma StillLoud(inner: State, s1: State, m: set<NodeId>, b: nat)
    requires Wf(inner) && Grew(|inner.blocks|, inner.current, m, inner, s1) && b != inner.current
    requires b < |inner.blocks| && inner.blocks[b].after == [] && !Quiet(inner, b)
    ensures b < |s1.blocks| && s1.blocks[b].after == [] && b != s1.current && !Quiet(s1, b)
  {
  }

  /** The function's record, its own instruction and its body. */
  lemma FunctionMid(st: State, outer: State, inner: State, s1: State, id: NodeId, told: set<NodeId>, lost: bool)
    requires Wf(st) && Wf(outer) && EnteredTold(outer, inner, {}) && Outcome(inner, s1, told, lost, false)
    requires Told(outer) == Told(st) + Only(Lost(st), id) && SameWays(st, outer) && SameStarts(st, outer)
    requires |st.blocks| <= |outer.blocks| <= EndOf(inner)
    ensures Told(s1) == Told(st) + (Only(Lost(st), id) + told)
    ensures forall x: nat :: x < |st.blocks| ==>
              (IsStart(s1, x) <==> IsStart(st, x)) && (HasWayIn(s1, x) <==> HasWayIn(st, x))
  {
    hide HasWayIn, IsStart, Told, Wf, Lost;
    MidTold(outer, inner, s1, {}, told, lost, false);
  }

  // ----- targets inside a statement -----

  lemma IfTargets(s: Stmt, st: State, inner: State, inLoop: bool)
    requires s.If? && Wf(st) && Targets(st, inLoop) && Enter(s, st) == Ok(inner)
    ensures Wf(inner) && Targets(inner, inLoop) && !Lost(inner)
  {
    hide HasWayIn, IsStart, Told, EnterIf, NodesGrew, EdgesGrew, Quiet, Lost;
    EnterIfTold(st, s.id, s.cond, ConditionNode(s.cond).value, s.cons.id, s.alt);
    EnterGrew(s, st);
    TargetsKept(st, inner, EnterIds(s), inLoop);
  }

  lemma WhileTargets(s: Stmt, st: State, inner: State, inLoop: bool)
    requires s.While? && Wf(st) && Targets(st, inLoop) && Enter(s, st) == Ok(inner)
    ensures Wf(inner) && Targets(inner, true) && !Lost(inner)
  {
    hide HasWayIn, IsStart, Told, EnterWhile, NodesGrew, EdgesGrew, Quiet, Lost;
    EnterWhileTold(st, s.id, s.cond, ConditionNode(s.cond).value, s.body.id);
    EnterGrew(s, st);
    EndSame(st, inner);
    QuietKept(st, inner, EnterIds(s), EndOf(st));
  }

  lemma ForInTargets(s: Stmt, st: State, inner: State, inLoop: bool)
    requires s.ForIn? && Wf(st) && Targets(st, inLoop) && Enter(s, st) == Ok(inner)
    ensures Wf(inner) && Targets(inner, true) && !Lost(inner)
  {
    hide HasWayIn, IsStart, Told, EnterForIn, ForInBase, NodesGrew, EdgesGrew, Quiet, Lost;
    EnterForInTold(st, s.id, s.right, s.body.id);
    EnterGrew(s, st);
    EndSame(st, inner);
    QuietKept(st, inner, EnterIds(s), EndOf(st));
  }

  lemma FunctionTargets(s: Stmt, st: State, inner: State, inLoop: bool)
    requires s.Function? && Wf(st) && Targets(st, inLoop) && Enter(s, st) == Ok(inner)
    ensures Wf(inner) && Targets(inner, false) && !Lost(inner)
  {
    hide HasWayIn, IsStart, Told, AddInstruction, BeginFunction, NodesGrew, EdgesGrew, Quiet, Lost;
    AddInstructionTold(st, Assign, s.id);
    BeginFunctionTold(AddInstruction(st, Assign, s.id), s.id);
    EnterGrew(s, st);
    if st.brk != [] {
      QuietKept(st, inner, EnterIds(s), Last(st.brk));
    }
    if st.cont != [] {
      LastInRange(st.cont, |st.blocks|);
    }
  }

  predicate InLoop(s: Stmt, inLoop: bool)
    requires IsNested(s)
  {
    if s.If? then inLoop else IsLoop(s)
  }

  lemma InnerTargets(s: Stmt, st: State, inner: State, inLoop: bool)
    requires IsNested(s) && Wf(st) && Targets(st, inLoop) && Enter(s, st) == Ok(inner)
    ensures Wf(inner) && Targets(inner, InLoop(s, inLoop)) && !Lost(inner)
  {
    hide Targets, Lost, Enter, Wf;
    match s
    case If(_, _, _, _) => IfTargets(s, st, inner, inLoop);
    case While(_, _, _) => WhileTargets(s, st, inner, inLoop);
    case ForIn(_, _, _) => ForInTargets(s, st, inner, inLoop);
    case Function(_, _, _) => FunctionTargets(s, st, inner, inLoop);
  }

  // ----- any statement -----

  lemma {:induction false} NestedKeepsBreaks(s: Stmt)
    requires WellNested(s, false)
    ensures !BreaksOut(s)
  {
    match s
    case Block(_, role, children) => NestedKeepsBreaksAll(children);
    case If(_, _, cons, _) => NestedKeepsBreaks(cons);
    case _ =>
  }

  lemma {:induction false} NestedKeepsBreaksAll(ss: Stmts)
    requires WellNestedAll(ss, false)
    ensures !BreaksOutAll(ss)
  {
    match ss
    case Nil =>
    case Cons(s, rest) =>
      NestedKeepsBreaks(s);
      NestedKeepsBreaksAll(rest);
  }

  lemma NestedTold(s: Stmt, st: State, inner: State, s1: State, inLoop: bool)
    requires IsNested(s) && ChildTold(s, st, inner, s1, inLoop) && WellNested(s, inLoop)
    ensures Outcome(st, Leave(s, st, s1), ReportedBy(s, Lost(st)), LostAfter(s, Lost(st)), BreaksOut(s))
  {
    hide ChildTold, Outcome, Lost, Leave, Wf;
    match s
    case If(_, _, _, _) => IfTold(s, st, inner, s1, inLoop);
    case While(_, _, _) => WhileTold(s, st, inner, s1, inLoop);
    case ForIn(_, _, _) => ForInTold(s, st, inner, s1, inLoop);
    case Function(_, _, body) =>
      NestedKeepsBreaks(body);
      FunctionTold(s, st, inner, s1, inLoop);
  }

  /** Building a well-nested statement tells exactly ReportedBy, and leaves the way to
      the next statement as LostAfter says. */
  lemma {:induction false} BuildTold(s: Stmt, st: State, inLoop: bool)
    requires Wf(st) && Targets(st, inLoop) && WellNested(s, inLoop) && Build(s, st).Ok?
    ensures Outcome(st, Build(s, st).value, ReportedBy(s, Lost(st)), LostAfter(s, Lost(st)), BreaksOut(s))
    ensures Targets(Build(s, st).value, inLoop)
    decreases s
  {
    hide Wf, Told, HasWayIn, IsStart, Quiet, Lost, Enter, Leave, BuildLeaf, NodesGrew, EdgesGrew;
    if s.Block? {
      BuildAllTold(s.children, st, inLoop && s.role.InOrder?);
      if !s.role.InOrder? {
        NestedKeepsBreaksAll(s.children);
      }
    } else {
      var r := Build(s, st).value;
      if IsNested(s) {
        BuildNested(s, st);
        var inner := Enter(s, st).value;
        InnerTargets(s, st, inner, inLoop);
        BuildTold(Child(s), inner, InLoop(s, inLoop));
        BuildGrew(Child(s), inner);
        NestedTold(s, st, inner, Build(Child(s), inner).value, inLoop);
      } else {
        LeafTold(s, st, inLoop);
      }
      BuildGrew(s, st);
      TargetsKept(st, r, Built(s), inLoop);
    }
  }

  lemma {:induction false} BuildAllTold(ss: Stmts, st: State, inLoop: bool)
    requires Wf(st) && Targets(st, inLoop) && WellNestedAll(ss, inLoop) && BuildAll(ss, st).Ok?
    ensures Outcome(st, BuildAll(ss, st).value, ReportedByAll(ss, Lost(st)), LostAfterAll(ss, Lost(st)),
              BreaksOutAll(ss))
    ensures Targets(BuildAll(ss, st).value, inLoop)
    decreases ss
  {
    hide Wf, Told, HasWayIn, IsStart, Quiet, Lost, Build, Targets;
    match ss
    case Nil =>
    case Cons(s, rest) =>
      BuildTold(s, st, inLoop);
      var s1 := Build(s, st).value;
      BuildAllTold(rest, s1, inLoop);
      BuildGrew(s, st);
      OneThenTheOther(st, s1, BuildAll(rest, s1).value, ReportedBy(s, Lost(st)), LostAfter(s, Lost(st)), BreaksOut(s),
                      ReportedByAll(rest, Lost(s1)), LostAfterAll(rest, Lost(s1)), BreaksOutAll(rest));
  }

  lemma OneThenTheOther(st: State, s1: State, r: State, told1: set<NodeId>, lost1: bool, breaks1: bool,
      told2: set<NodeId>, lost2: bool, breaks2: bool)
    requires Wf(st) && Outcome(st, s1, told1, lost1, breaks1) && Outcome(s1, r, told2, lost2, breaks2)
    requires s1.brk == st.brk && s1.stack == st.stack && EdgesGrew(|st.blocks|, st.current, st, s1)
    ensures Outcome(st, r, told1 + told2, lost2, breaks1 || breaks2)
  {
    hide Told, HasWayIn, IsStart, Lost, EdgesGrew;
    EndSame2(st, s1);
    if st.brk != [] {
      LastInRange(st.brk, |st.blocks|);
    }
  }

  lemma EndSame2(st: State, s1: State)
    requires Wf(st) && Wf(s1) && EdgesGrew(|st.blocks|, st.current, st, s1) && s1.stack == st.stack
    ensures EndOf(s1) == EndOf(st) && |st.blocks| <= |s1.blocks|
  {
    EndKept(st, s1);
  }

  // ----- programs -----

  /** The report of a program's graph, told by its syntax. */
  lemma ProgramTold(id: NodeId, ss: Stmts)
    requires WellNestedAll(ss, false) && BuildProgram(id, ss).Ok?
    ensures Told(BuildProgram(id, ss).value) == ReportedByAll(Expanded(ss), false)
  {
    hide BuildAll, HasWayIn, IsStart, Told, Wf, Lost, Quiet, AddEdge;
    var st := BeginFunction(EMPTY, id);
    StartTold(id);
    ExpandedNested(ss);
    BuildAllTold(Expanded(ss), st, false);
    var s1 := BuildAll(Expanded(ss), st).value;
    BuildAllGrew(Expanded(ss), st);
    EndSame2(st, s1);
    InBlocks(s1);
    AddEdgeTold(s1, s1.current, EndOf(s1));
  }

  lemma StartTold(id: NodeId)
    ensures var st := BeginFunction(EMPTY, id);
      Wf(st) && Told(st) == {} && !Lost(st) && Targets(st, false) && EndOf(st) == 1 && st.stack == [0]
  {
    var st := BeginFunction(EMPTY, id);
    assert st.funs[0].start == 0 && IsStart(st, 0);
  }
}
