/** What every step of the builder keeps: `After` and `Before` are each other's
    converse, every block belongs to exactly one function, and edges never leave
    their function. */
module CfgInvariant {
  import opened CfgSyntax
  import opened CfgGraph

  ghost predicate Dual(st: State) {
    forall a, b :: 0 <= a < |st.blocks| && 0 <= b < |st.blocks| ==>
      multiset(st.blocks[a].after)[b] == multiset(st.blocks[b].before)[a]
  }

  predicate FunOwns(st: State, f: nat)
    requires f < |st.funs|
  {
    var fun := st.funs[f];
    && fun.start in fun.blocks && fun.end in fun.blocks
    && forall b <- fun.blocks :: b < |st.blocks| && st.blocks[b].fn == f
  }

  predicate BlockOwned(st: State, b: nat)
    requires b < |st.blocks|
  {
    && st.blocks[b].fn < |st.funs| && b in st.funs[st.blocks[b].fn].blocks
    && forall c <- st.blocks[b].after :: c < |st.blocks| && st.blocks[c].fn == st.blocks[b].fn
  }

  /** The blocks are shared out among the functions, edges included. */
  predicate Owned(st: State) {
    && (forall f {:trigger FunOwns(st, f)} :: 0 <= f < |st.funs| ==> FunOwns(st, f))
    && (forall b {:trigger BlockOwned(st, b)} :: 0 <= b < |st.blocks| ==> BlockOwned(st, b))
  }

  predicate OfCurrentFun(st: State, b: nat)
    requires Wf(st)
  {
    b < |st.blocks| && st.blocks[b].fn == CurrentFun(st)
  }

  ghost predicate Good(st: State) {
    Wf(st) && Dual(st) && Owned(st) && OfCurrentFun(st, st.current)
  }

  /** Inside a loop the targets of `break` and `continue` are at hand, and they
      belong to the function being built. */
  predicate LoopTargets(st: State, inLoop: bool)
    requires Wf(st)
  {
    inLoop ==> st.brk != [] && OfCurrentFun(st, Last(st.brk)) && st.cont != [] && OfCurrentFun(st, Last(st.cont))
  }

  /** `r` comes from `st`, possibly inside further functions: blocks stay in their
      function and edges are only added. */
  ghost predicate Later(st: State, r: State)
  {
    && |r.blocks| >= |st.blocks| && |r.funs| >= |st.funs|
    && (forall b :: 0 <= b < |st.blocks| ==> r.blocks[b].fn == st.blocks[b].fn)
    && (forall f :: 0 <= f < |st.funs| ==> r.funs[f].start == st.funs[f].start && r.funs[f].end == st.funs[f].end)
  }

  ghost predicate Keeps(st: State, r: State)
    requires Wf(st)
  {
    Good(r) && Later(st, r) && r.stack == st.stack
  }

  // ----- primitive steps -----

  /** Steps that touch neither edges nor ownership. */
  lemma SameEdgesKeep(st: State, r: State)
    requires Good(st) && Wf(r) && r.funs == st.funs && |r.blocks| == |st.blocks| && r.stack == st.stack
    requires OfCurrentFun(r, r.current)
    requires forall b :: 0 <= b < |st.blocks| ==> r.blocks[b].fn == st.blocks[b].fn
    requires forall b :: 0 <= b < |st.blocks| ==> r.blocks[b].after == st.blocks[b].after
    requires forall b :: 0 <= b < |st.blocks| ==> r.blocks[b].before == st.blocks[b].before
    ensures Keeps(st, r)
  {
    hide Wf;
    forall f | 0 <= f < |r.funs|
      ensures FunOwns(r, f)
    {
      assert FunOwns(st, f);
    }
    forall b | 0 <= b < |r.blocks|
      ensures BlockOwned(r, b)
    {
      assert BlockOwned(st, b);
    }
  }

  /** Blocks without edges keep the graph dual. */
  lemma NewBlocksDual(st: State, r: State)
    requires Dual(st) && (forall b :: 0 <= b < |st.blocks| ==> BlockInRange(st.blocks[b], |st.blocks|))
    requires |st.blocks| <= |r.blocks| && r.blocks[..|st.blocks|] == st.blocks
    requires forall b :: |st.blocks| <= b < |r.blocks| ==> r.blocks[b].after == [] && r.blocks[b].before == []
    ensures Dual(r)
  {
    forall a, b | 0 <= a < |r.blocks| && 0 <= b < |r.blocks|
      ensures multiset(r.blocks[a].after)[b] == multiset(r.blocks[b].before)[a]
    {
      if a < |st.blocks| <= b {
        assert r.blocks[a] == st.blocks[a] && BlockInRange(st.blocks[a], |st.blocks|);
      } else if b < |st.blocks| <= a {
        assert r.blocks[b] == st.blocks[b] && BlockInRange(st.blocks[b], |st.blocks|);
      } else if a < |st.blocks| {
        assert r.blocks[a] == st.blocks[a] && r.blocks[b] == st.blocks[b];
      }
    }
  }

  /** So do the functions, when every new block has its owner. */
  lemma NewBlocksOwned(st: State, r: State)
    requires Owned(st) && |st.blocks| <= |r.blocks| && r.blocks[..|st.blocks|] == st.blocks && |st.funs| <= |r.funs|
    requires forall f :: 0 <= f < |st.funs| ==> ExtendsFun(st, r, f)
    requires forall f :: |st.funs| <= f < |r.funs| ==> FunOwns(r, f)
    requires forall b :: |st.blocks| <= b < |r.blocks| ==> BlockOwned(r, b)
    ensures Owned(r)
  {
    forall f | 0 <= f < |r.funs|
      ensures FunOwns(r, f)
    {
      if f < |st.funs| {
        assert FunOwns(st, f) && ExtendsFun(st, r, f);
        forall b | b in r.funs[f].blocks
          ensures b < |r.blocks| && r.blocks[b].fn == f
        {
          if b < |st.blocks| {
            assert r.blocks[b] == st.blocks[b];
          }
        }
      }
    }
    forall b | 0 <= b < |r.blocks|
      ensures BlockOwned(r, b)
    {
      if b < |st.blocks| {
        assert BlockOwned(st, b) && r.blocks[b] == st.blocks[b] && ExtendsFun(st, r, st.blocks[b].fn);
        forall c | c in r.blocks[b].after
          ensures c < |r.blocks| && r.blocks[c].fn == r.blocks[b].fn
        {
          assert r.blocks[c] == st.blocks[c];
        }
      }
    }
  }

  /** The function has its old blocks, and new ones that know it. */
  predicate ExtendsFun(st: State, r: State, f: nat)
    requires f < |st.funs| <= |r.funs|
  {
    && r.funs[f].start == st.funs[f].start && r.funs[f].end == st.funs[f].end
    && (forall b <- st.funs[f].blocks :: b in r.funs[f].blocks)
    && forall b <- r.funs[f].blocks :: b in st.funs[f].blocks || (|st.blocks| <= b < |r.blocks| && r.blocks[b].fn == f)
  }

  lemma AddBlockKeeps(st: State)
    requires Good(st)
    ensures Keeps(st, AddBlock(st)) && OfCurrentFun(AddBlock(st), |st.blocks|)
    ensures AddBlock(st).current == st.current
  {
    var r := AddBlock(st);
    NewBlocksDual(st, r);
    NewBlocksOwned(st, r);
    hide Dual, Owned;
    assert FunInRange(st.funs[CurrentFun(st)], |st.blocks|);
  }

  lemma AddEdgeDual(st: State, a: nat, b: nat)
    requires Wf(st) && Dual(st) && a < |st.blocks| && b < |st.blocks|
    ensures Dual(AddEdge(st, a, b))
  {
    hide Wf;
    var r := AddEdge(st, a, b);
    forall x, y | 0 <= x < |r.blocks| && 0 <= y < |r.blocks|
      ensures multiset(r.blocks[x].after)[y] == multiset(r.blocks[y].before)[x]
    {
      assert r.blocks[x].after == if x == a then st.blocks[x].after + [b] else st.blocks[x].after;
      assert r.blocks[y].before == if y == b then st.blocks[y].before + [a] else st.blocks[y].before;
    }
  }

  lemma AddEdgeKeeps(st: State, a: nat, b: nat)
    requires Good(st) && a < |st.blocks| && b < |st.blocks| && st.blocks[a].fn == st.blocks[b].fn
    ensures Keeps(st, AddEdge(st, a, b)) && AddEdge(st, a, b).current == st.current
  {
    hide Wf, Dual;
    var r := AddEdge(st, a, b);
    forall f | 0 <= f < |r.funs|
      ensures FunOwns(r, f)
    {
      assert FunOwns(st, f);
    }
    forall c | 0 <= c < |r.blocks|
      ensures BlockOwned(r, c)
    {
      assert BlockOwned(st, c);
    }
    AddEdgeDual(st, a, b);
  }

  lemma SetNodeKeeps(st: State, b: nat, node: NodeId)
    requires Good(st) && b < |st.blocks|
    ensures Keeps(st, SetNode(st, b, node)) && SetNode(st, b, node).current == st.current
  {
    SameEdgesKeep(st, SetNode(st, b, node));
  }

  lemma SetCurrentKeeps(st: State, b: nat)
    requires Good(st) && OfCurrentFun(st, b)
    ensures Keeps(st, SetCurrent(st, b))
  {
    SameEdgesKeep(st, SetCurrent(st, b));
  }

  lemma AddInstructionKeeps(st: State, kind: InstructionKind, node: NodeId)
    requires Good(st)
    ensures Keeps(st, AddInstruction(st, kind, node))
  {
    AddBlockKeeps(st);
    if st.blocks[st.current].after != [] {
      SetCurrentKeeps(AddBlock(st), |st.blocks|);
    }
    SameEdgesKeep(OpenBlock(st), AddInstruction(st, kind, node));
  }

  lemma BeginFunctionDual(st: State, node: NodeId)
    requires (Wf(st) && Dual(st)) || st == EMPTY
    ensures Dual(BeginFunction(st, node))
  {
    NewBlocksDual(st, BeginFunction(st, node));
  }

  lemma BeginFunctionOwned(st: State, node: NodeId)
    requires (Wf(st) && Owned(st)) || st == EMPTY
    ensures Owned(BeginFunction(st, node))
  {
    hide Wf, BlockInRange;
    NewBlocksOwned(st, BeginFunction(st, node));
  }

  lemma BeginFunctionKeeps(st: State, node: NodeId)
    requires Good(st) || st == EMPTY
    ensures var r := BeginFunction(st, node); Good(r) && Later(st, r)
  {
    hide Dual, Owned;
    BeginFunctionDual(st, node);
    BeginFunctionOwned(st, node);
  }

  // ----- composed steps -----

  lemma PushLoopKeeps(st: State, cont: nat, brk: nat)
    requires Good(st) && OfCurrentFun(st, cont) && OfCurrentFun(st, brk)
    ensures Keeps(st, PushLoop(st, cont, brk)) && LoopTargets(PushLoop(st, cont, brk), true)
    ensures PushLoop(st, cont, brk).current == st.current
  {
    SameEdgesKeep(st, PushLoop(st, cont, brk));
  }

  lemma JoinToKeeps(st: State, b: nat)
    requires Good(st) && OfCurrentFun(st, b)
    ensures Keeps(st, JoinTo(st, b))
  {
    AddEdgeKeeps(st, st.current, b);
  }

  lemma EnterConditionKeeps(st: State, id: NodeId, n: nat, condId: NodeId)
    requires Good(st) && OfCurrentFun(st, n)
    ensures Keeps(st, EnterCondition(st, id, n, condId))
  {
    hide Wf, Dual, Owned, AddInstruction, AddEdge, SetNode, SetCurrent;
    AddInstructionKeeps(st, Branch, id);
    var s1 := AddInstruction(st, Branch, id);
    AddEdgeKeeps(s1, s1.current, n);
    var s2 := AddEdge(s1, s1.current, n);
    SetNodeKeeps(s2, n, condId);
    SetCurrentKeeps(SetNode(s2, n, condId), n);
    AddInstructionKeeps(SetCurrent(SetNode(s2, n, condId), n), Branch, id);
  }

  lemma EdgeUnlessKeeps(st: State, skip: bool, b: nat)
    requires Good(st) && OfCurrentFun(st, b)
    ensures Keeps(st, EdgeUnless(st, skip, b)) && EdgeUnless(st, skip, b).current == st.current
  {
    AddEdgeKeeps(st, st.current, b);
  }

  lemma ElseBranchKeeps(st: State, n: nat, impl: Expr, alt: Else)
    requires Good(st) && n + 4 <= |st.blocks| && OfCurrentFun(st, n + 2) && OfCurrentFun(st, n + 3)
    ensures Keeps(st, ElseBranch(st, n, impl, alt))
  {
    hide Wf, Dual, Owned, AddEdge, SetNode, EdgeUnless, ConstantTrue, CurrentFun;
    if alt.NoElse? {
      AddEdgeKeeps(st, st.current, n + 3);
    } else {
      EdgeUnlessKeeps(st, ConstantTrue(impl), n + 2);
      SetNodeKeeps(EdgeUnless(st, ConstantTrue(impl), n + 2), n + 2, alt.id);
    }
  }

  lemma EnterBranchesKeeps(st: State, n: nat, impl: Expr, consId: NodeId, alt: Else)
    requires Good(st) && n + 4 <= |st.blocks|
    requires OfCurrentFun(st, n + 1) && OfCurrentFun(st, n + 2) && OfCurrentFun(st, n + 3)
    ensures Keeps(st, EnterBranches(st, n, impl, consId, alt))
  {
    hide Wf, Dual, Owned, AddInstruction, SetNode, SetCurrent, EdgeUnless, ElseBranch, ConstantFalse;
    EdgeUnlessKeeps(st, ConstantFalse(impl), n + 1);
    var s3 := EdgeUnless(st, ConstantFalse(impl), n + 1);
    SetNodeKeeps(s3, n + 1, consId);
    var s4 := SetNode(s3, n + 1, consId);
    ElseBranchKeeps(s4, n, impl, alt);
    var s5 := ElseBranch(s4, n, impl, alt);
    SetCurrentKeeps(s5, n + 1);
    AddInstructionKeeps(SetCurrent(s5, n + 1), Branch, consId);
  }

  /** Four new blocks, all of the current function. */
  lemma AddBlocksKeep(st: State)
    requires Good(st)
    ensures var n := |st.blocks|;
            var r := AddBlock(AddBlock(AddBlock(st)));
            && Keeps(st, r) && |r.blocks| == n + 3 && r.current == st.current
            && OfCurrentFun(r, n) && OfCurrentFun(r, n + 1) && OfCurrentFun(r, n + 2)
            && Keeps(st, AddBlock(r)) && |AddBlock(r).blocks| == n + 4 && AddBlock(r).current == st.current
            && OfCurrentFun(AddBlock(r), n) && OfCurrentFun(AddBlock(r), n + 1)
            && OfCurrentFun(AddBlock(r), n + 2) && OfCurrentFun(AddBlock(r), n + 3)
  {
    hide Wf, Dual, Owned, AddBlock;
    AddBlockKeeps(st);
    AddBlockKeeps(AddBlock(st));
    AddBlockKeeps(AddBlock(AddBlock(st)));
    AddBlockKeeps(AddBlock(AddBlock(AddBlock(st))));
  }

  lemma EnterIfKeeps(st: State, id: NodeId, cond: Expr, impl: Expr, consId: NodeId, alt: Else)
    requires Good(st)
    ensures var r := EnterIf(st, id, cond, impl, consId, alt);
            Keeps(st, r) && OfCurrentFun(r, |st.blocks| + 2) && OfCurrentFun(r, |st.blocks| + 3)
  {
    hide Wf, Dual, Owned, AddBlock, EnterCondition, EnterBranches;
    var n := |st.blocks|;
    AddBlocksKeep(st);
    var s1 := AddBlock(AddBlock(AddBlock(AddBlock(st))));
    EnterConditionKeeps(s1, id, n, cond.id);
    EnterBranchesKeeps(EnterCondition(s1, id, n, cond.id), n, impl, consId, alt);
  }

  lemma WhileBranchesKeeps(st: State, n: nat, impl: Expr, bodyId: NodeId)
    requires Good(st) && n + 3 <= |st.blocks|
    requires OfCurrentFun(st, n) && OfCurrentFun(st, n + 1) && OfCurrentFun(st, n + 2)
    ensures Keeps(st, WhileBranches(st, n, impl, bodyId))
  {
    hide Wf, Dual, Owned, AddEdge, SetNode, SetCurrent, EdgeUnless;
    AddEdgeKeeps(st, n, n + 2);
    var s4 := if ConstantTrue(impl) then st else AddEdge(st, n, n + 2);
    EdgeUnlessKeeps(s4, ConstantFalse(impl), n + 1);
    var s5 := EdgeUnless(s4, ConstantFalse(impl), n + 1);
    SetNodeKeeps(s5, n + 1, bodyId);
    SetCurrentKeeps(SetNode(s5, n + 1, bodyId), n + 1);
  }

  lemma EnterWhileKeeps(st: State, id: NodeId, cond: Expr, impl: Expr, bodyId: NodeId)
    requires Good(st)
    ensures var r := EnterWhile(st, id, cond, impl, bodyId);
            Keeps(st, r) && LoopTargets(r, true) && OfCurrentFun(r, |st.blocks|) && OfCurrentFun(r, |st.blocks| + 2)
  {
    hide Wf, Dual, Owned, AddBlock, EnterCondition, WhileBranches;
    var n := |st.blocks|;
    AddBlocksKeep(st);
    var s1 := AddBlock(AddBlock(AddBlock(st)));
    PushLoopKeeps(s1, n, n + 2);
    var s2 := PushLoop(s1, n, n + 2);
    hide PushLoop;
    EnterConditionKeeps(s2, id, n, cond.id);
    WhileBranchesKeeps(EnterCondition(s2, id, n, cond.id), n, impl, bodyId);
  }

  lemma EnterForInKeeps(st: State, id: NodeId, right: NodeId, bodyId: NodeId)
    requires Good(st)
    ensures var r := EnterForIn(st, id, right, bodyId);
            && Keeps(st, r) && LoopTargets(r, true)
            && OfCurrentFun(r, ForInBase(st) + 1) && OfCurrentFun(r, ForInBase(st) + 3)
  {
    hide Wf, Dual, Owned, AddBlock, AddInstruction, AddEdge, SetNode, SetCurrent, EdgeUnless, ForInBase;
    ForInInitKeeps(st, id);
    var n := ForInBase(st);
    var s1 := ForInInit(st, id);
    hide ForInInit;
    AddInstructionKeeps(s1, Assign, right);
    var s2 := AddInstruction(s1, Assign, right);
    AddEdgeKeeps(s2, n, n + 1);
    SetCurrentKeeps(AddEdge(s2, n, n + 1), n + 1);
    var s3 := ForInIterator(s1, n, right);
    hide ForInIterator;
    AddInstructionKeeps(s3, Assign, right);
    AddInstructionKeeps(AddInstruction(s3, Assign, right), Branch, right);
    var s4 := AddInstruction(AddInstruction(s3, Assign, right), Branch, right);
    AddEdgeKeeps(s4, n + 1, n + 2);
    var s5 := AddEdge(s4, n + 1, n + 2);
    AddEdgeKeeps(s5, s5.current, n + 3);
    SetNodeKeeps(AddEdge(s5, s5.current, n + 3), n + 2, bodyId);
    SetCurrentKeeps(SetNode(AddEdge(s5, s5.current, n + 3), n + 2, bodyId), n + 2);
  }

  lemma ForInInitKeeps(st: State, id: NodeId)
    requires Good(st)
    ensures var r := ForInInit(st, id);
            var n := ForInBase(st);
            && Keeps(st, r) && LoopTargets(r, true) && OfCurrentFun(r, n) && OfCurrentFun(r, n + 1)
            && OfCurrentFun(r, n + 2) && OfCurrentFun(r, n + 3)
  {
    hide Wf, Dual, Owned, AddBlock, AddInstruction, AddEdge, SetCurrent;
    var n := ForInBase(st);
    AddInstructionKeeps(st, Branch, id);
    var s0 := AddInstruction(st, Branch, id);
    AddBlocksKeep(s0);
    var s1 := AddBlock(AddBlock(AddBlock(AddBlock(s0))));
    PushLoopKeeps(s1, n + 1, n + 3);
    var s2 := PushLoop(s1, n + 1, n + 3);
    hide PushLoop;
    AddEdgeKeeps(s2, s2.current, n);
    SetCurrentKeeps(AddEdge(s2, s2.current, n), n);
  }

  lemma LeaveIfKeeps(st: State, n: nat, alt: Else)
    requires Good(st) && n + 4 <= |st.blocks| && OfCurrentFun(st, n + 2) && OfCurrentFun(st, n + 3)
    ensures Keeps(st, LeaveIf(st, n, alt))
  {
    hide Wf, Dual, Owned, JoinTo, SetCurrent;
    JoinToKeeps(st, n + 3);
    var s1 := JoinTo(st, n + 3);
    SetCurrentKeeps(s1, n + 2);
    JoinToKeeps(SetCurrent(s1, n + 2), n + 3);
    var s2 := if alt.NoElse? then s1 else JoinTo(SetCurrent(s1, n + 2), n + 3);
    SetCurrentKeeps(s2, n + 3);
  }

  lemma LeaveLoopKeeps(st: State, cont: nat, after: nat)
    requires Good(st) && OfCurrentFun(st, cont) && OfCurrentFun(st, after)
    ensures Keeps(st, LeaveLoop(st, cont, after))
  {
    hide Wf, Dual, Owned, JoinTo, SetCurrent;
    JoinToKeeps(st, cont);
    var s1 := JoinTo(st, cont);
    SetCurrentKeeps(s1, after);
    SameEdgesKeep(SetCurrent(s1, after), PopLoop(SetCurrent(s1, after)));
  }

  lemma CurrentEndOwned(st: State)
    requires Good(st)
    ensures OfCurrentFun(st, st.funs[CurrentFun(st)].end)
  {
    assert FunOwns(st, CurrentFun(st));
  }

  lemma LeaveFunctionKeeps(st: State, back: nat)
    requires Good(st) && |st.stack| >= 2 && back < |st.blocks| && st.blocks[back].fn == Last(Popped(st.stack))
    ensures var r := LeaveFunction(st, back); Good(r) && Later(st, r)
  {
    hide Dual, Owned, AddEdge;
    CurrentEndOwned(st);
    AddEdgeKeeps(st, st.current, st.funs[CurrentFun(st)].end);
    var s1 := AddEdge(st, st.current, st.funs[CurrentFun(st)].end);
    SameGraphIsGood(s1, LeaveFunction(st, back));
  }

  /** Being dual and shared out is a matter of the graph, not of the cursor. */
  lemma SameGraphIsGood(st: State, r: State)
    requires Good(st) && Wf(r) && r.blocks == st.blocks && r.funs == st.funs && OfCurrentFun(r, r.current)
    ensures Good(r) && Later(st, r)
  {
    forall f | 0 <= f < |r.funs|
      ensures FunOwns(r, f)
    {
      assert FunOwns(st, f);
    }
    forall b | 0 <= b < |r.blocks|
      ensures BlockOwned(r, b)
    {
      assert BlockOwned(st, b);
    }
  }

  lemma BuildJumpKeeps(st: State, id: NodeId, target: nat)
    requires Good(st) && OfCurrentFun(st, target)
    ensures Keeps(st, BuildJump(st, id, target))
  {
    hide Wf, Dual, Owned, AddBlock, AddInstruction, AddEdge, SetCurrent;
    var n := |st.blocks|;
    AddBlockKeeps(st);
    SetCurrentKeeps(AddBlock(st), n);
    AddInstructionKeeps(SetCurrent(AddBlock(st), n), Branch, id);
    var s1 := AddInstruction(SetCurrent(AddBlock(st), n), Branch, id);
    AddEdgeKeeps(s1, st.current, n);
    AddEdgeKeeps(AddEdge(s1, st.current, n), n, target);
  }

  lemma BuildReturnKeeps(st: State, id: NodeId)
    requires Good(st)
    ensures Keeps(st, BuildReturn(st, id))
  {
    hide Wf, Dual, Owned, AddBlock, AddInstruction, AddEdge, SetCurrent;
    var n := |st.blocks|;
    AddBlockKeeps(st);
    AddBlockKeeps(AddBlock(st));
    SetCurrentKeeps(AddBlock(AddBlock(st)), n);
    AddInstructionKeeps(SetCurrent(AddBlock(AddBlock(st)), n), Jump, id);
    var s1 := AddInstruction(SetCurrent(AddBlock(AddBlock(st)), n), Jump, id);
    AddEdgeKeeps(s1, st.current, n);
    var s2 := AddEdge(s1, st.current, n);
    CurrentEndOwned(s2);
    AddEdgeKeeps(s2, n, s2.funs[CurrentFun(s2)].end);
    SetCurrentKeeps(AddEdge(s2, n, s2.funs[CurrentFun(s2)].end), n + 1);
  }

  // ----- whole statements -----

  /** What Enter leaves for the child, and what Leave needs after it. */
  lemma EnterKeeps(s: Stmt, st: State)
    requires Good(st) && IsNested(s) && Enter(s, st).Ok?
    ensures var inner := Enter(s, st).value; Good(inner) && Later(st, inner)
    ensures IsLoop(s) ==> LoopTargets(Enter(s, st).value, true)
    ensures s.If? ==> LoopTargets(st, true) ==> LoopTargets(Enter(s, st).value, true)
  {
    hide Wf, Dual, Owned, EnterIf, EnterWhile, EnterForIn, AddInstruction, BeginFunction;
    match s
    case If(id, cond, cons, alt) => EnterIfKeeps(st, id, cond, ConditionNode(cond).value, cons.id, alt);
    case While(id, cond, body) => EnterWhileKeeps(st, id, cond, ConditionNode(cond).value, body.id);
    case ForIn(id, right, body) => EnterForInKeeps(st, id, right, body.id);
    case Function(id, _, _) =>
      AddInstructionKeeps(st, Assign, id);
      BeginFunctionKeeps(AddInstruction(st, Assign, id), id);
  }

  lemma LeaveInnerKeeps(outer: State, id: NodeId, s1: State)
    requires Good(outer) && Grows(BeginFunction(outer, id), s1) && Keeps(BeginFunction(outer, id), s1)
    ensures |s1.stack| >= 2 && outer.current < |s1.blocks| && Keeps(outer, LeaveFunction(s1, outer.current))
  {
    hide Dual, Owned, LeaveFunction;
    BeginFunctionKeeps(outer, id);
    assert Popped(s1.stack) == outer.stack;
    LeaveFunctionKeeps(s1, outer.current);
  }

  lemma StillOwned(st: State, r: State, b: nat)
    requires Wf(st) && Keeps(st, r) && OfCurrentFun(st, b)
    ensures Wf(r) && OfCurrentFun(r, b)
  {
    hide Wf, Dual, Owned;
  }

  lemma KeepsThen(a: State, b: State, c: State)
    requires Wf(a) && Keeps(a, b) && Wf(b) && Keeps(b, c)
    ensures Keeps(a, c)
  {
    hide Wf, Dual, Owned;
  }

  lemma LeaveKeeps(s: Stmt, st: State, s1: State)
    requires Good(st) && IsNested(s) && Enter(s, st).Ok? && Grows(Enter(s, st).value, s1)
    requires Keeps(Enter(s, st).value, s1)
    ensures Keeps(st, Leave(s, st, s1))
  {
    hide Wf, Dual, Owned, EnterIf, EnterWhile, EnterForIn, AddInstruction, BeginFunction, LeaveIf, LeaveLoop,
        LeaveFunction, ForInBase, Later, OfCurrentFun;
    match s
    case If(id, cond, cons, alt) =>
      var n, impl := |st.blocks|, ConditionNode(cond).value;
      EnterIfKeeps(st, id, cond, impl, cons.id, alt);
      var inner := EnterIf(st, id, cond, impl, cons.id, alt);
      StillOwned(inner, s1, n + 2);
      StillOwned(inner, s1, n + 3);
      LeaveIfKeeps(s1, n, alt);
      KeepsThen(st, inner, s1);
      KeepsThen(st, s1, LeaveIf(s1, n, alt));
    case While(id, cond, body) =>
      var n, impl := |st.blocks|, ConditionNode(cond).value;
      EnterWhileKeeps(st, id, cond, impl, body.id);
      LeaveInnerLoopKeeps(st, EnterWhile(st, id, cond, impl, body.id), s1, n, n + 2);
    case ForIn(id, right, body) =>
      EnterForInKeeps(st, id, right, body.id);
      LeaveInnerLoopKeeps(st, EnterForIn(st, id, right, body.id), s1, ForInBase(st) + 1, ForInBase(st) + 3);
    case Function(id, _, _) =>
      var outer := AddInstruction(st, Assign, id);
      AddInstructionKeeps(st, Assign, id);
      LeaveInnerKeeps(outer, id, s1);
      KeepsThen(st, outer, LeaveFunction(s1, outer.current));
  }

  lemma LeaveInnerLoopKeeps(st: State, inner: State, s1: State, cont: nat, after: nat)
    requires Wf(st) && Wf(inner) && Keeps(st, inner) && Keeps(inner, s1)
    requires OfCurrentFun(inner, cont) && OfCurrentFun(inner, after)
    ensures Wf(s1) && cont < |s1.blocks| && after < |s1.blocks| && Keeps(st, LeaveLoop(s1, cont, after))
  {
    hide Wf, Dual, Owned, LeaveLoop, Later;
    StillOwned(inner, s1, cont);
    StillOwned(inner, s1, after);
    LeaveLoopKeeps(s1, cont, after);
    KeepsThen(st, inner, s1);
    KeepsThen(st, s1, LeaveLoop(s1, cont, after));
  }

  lemma BuildLeafKeeps(s: Stmt, st: State, inLoop: bool)
    requires Good(st) && LoopTargets(st, inLoop) && WellNested(s, inLoop)
    requires !IsNested(s) && !s.Block? && BuildLeaf(s, st).Ok?
    ensures Keeps(st, BuildLeaf(s, st).value)
  {
    hide Wf, Dual, Owned, BuildJump, BuildReturn, AddInstruction;
    match s
    case Plain(_) =>
    case Simple(id, kind) => AddInstructionKeeps(st, kind, id);
    case Break(id) => BuildJumpKeeps(st, id, Last(st.brk));
    case Continue(id) => BuildJumpKeeps(st, id, Last(st.cont));
    case Return(id) => BuildReturnKeeps(st, id);
  }

  /** Building a well-nested statement keeps the graph dual and shared out among the
      functions, keeps the cursor in the current function and restores every stack
      (the last two are part of Grows). */
  lemma {:induction false} BuildKeeps(s: Stmt, st: State, inLoop: bool)
    requires Good(st) && LoopTargets(st, inLoop) && WellNested(s, inLoop) && Build(s, st).Ok?
    ensures Keeps(st, Build(s, st).value) && Grows(st, Build(s, st).value)
    decreases s
  {
    hide Wf, Dual, Owned, Enter, Leave, BuildLeaf;
    if s.Block? {
      BuildAllKeeps(s.children, st, inLoop && s.role.InOrder?);
    } else if !IsNested(s) {
      BuildLeafKeeps(s, st, inLoop);
    } else {
      EnterKeeps(s, st);
      var inner := Enter(s, st).value;
      BuildKeeps(Child(s), inner, if s.If? then inLoop else IsLoop(s));
      LeaveKeeps(s, st, Build(Child(s), inner).value);
    }
  }

  lemma {:induction false} BuildAllKeeps(ss: Stmts, st: State, inLoop: bool)
    requires Good(st) && LoopTargets(st, inLoop) && WellNestedAll(ss, inLoop) && BuildAll(ss, st).Ok?
    ensures Keeps(st, BuildAll(ss, st).value) && Grows(st, BuildAll(ss, st).value)
    decreases ss
  {
    hide Wf, Dual, Owned;
    if ss.Cons? {
      BuildKeeps(ss.head, st, inLoop);
      BuildAllKeeps(ss.tail, Build(ss.head, st).value, inLoop);
    }
  }

  /** The finished graph of a program. */
  lemma {:induction false} ExpandedNested(ss: Stmts)
    ensures WellNestedAll(Expanded(ss), false) <==> WellNestedAll(ss, false)
  {
    if ss.Cons? {
      ExpandedNested(ss.tail);
    }
  }

  lemma BuildProgramKeeps(id: NodeId, ss: Stmts)
    requires WellNestedAll(ss, false) && BuildProgram(id, ss).Ok?
    ensures Good(BuildProgram(id, ss).value)
  {
    hide Wf, Dual, Owned, AddEdge, BeginFunction;
    BeginFunctionKeeps(EMPTY, id);
    var st := BeginFunction(EMPTY, id);
    ExpandedNested(ss);
    BuildAllKeeps(Expanded(ss), st, false);
    var s1 := BuildAll(Expanded(ss), st).value;
    CurrentEndOwned(s1);
    AddEdgeKeeps(s1, s1.current, s1.funs[CurrentFun(s1)].end);
    assert st.stack == [0];
  }
}
