/** What a step of the builder may touch: it adds edges out of the block that was
    current, or out of blocks it created, and records nodes only there. */
module CfgGrowth {
  import opened Options
  import opened CfgSyntax
  import opened CfgGraph

  /** Node `n` appears in a block, as its node or in its code. */
  predicate Mentions(b: Vertex, n: NodeId) {
    b.node == Some(n) || exists i :: 0 <= i < |b.code| && b.code[i].node == n
  }

  /** The nodes a build records. */
  function Built(s: Stmt): set<NodeId> {
    match s
    case Plain(_) => {}
    case Block(_, _, children) => BuiltAll(children)
    case If(id, cond, cons, alt) =>
      {id, cond.id, cons.id} + Built(cons) + if alt.ElseClause? then {alt.id} else {}
    case While(id, cond, body) => {id, cond.id, body.id} + Built(body)
    case ForIn(id, right, body) => {id, right, body.id} + Built(body)
    case Function(id, _, body) => {id} + Built(body)
    case _ => {s.id}
  }

  function BuiltAll(ss: Stmts): set<NodeId> {
    match ss
    case Nil => {}
    case Cons(s, rest) => Built(s) + BuiltAll(rest)
  }

  /** A block the build may write to: block `c`, or any block from `k` on. */
  predicate Mine(k: nat, c: nat, b: nat) {
    b == c || b >= k
  }

  predicate Ready(k: nat, c: nat, st: State) {
    k <= |st.blocks| && Mine(k, c, st.current)
  }

  predicate SameFun(x: Fun, y: Fun) {
    x.start == y.start && x.end == y.end && x.node == y.node
  }

  /** Functions keep their node and their start and end blocks. */
  ghost predicate FunsKept(st: State, r: State) {
    |r.funs| >= |st.funs| && forall f :: 0 <= f < |st.funs| ==> SameFun(st.funs[f], r.funs[f])
  }

  /** A block keeps its code, and never loses its node. */
  predicate Recorded(x: Vertex, y: Vertex) {
    x.code <= y.code && (x.node.Some? ==> y.node.Some?)
  }

  ghost predicate EdgesGrew(k: nat, c: nat, st: State, r: State) {
    && |r.blocks| >= |st.blocks| && FunsKept(st, r)
    && (forall b :: 0 <= b < |st.blocks| ==> Recorded(st.blocks[b], r.blocks[b]))
    && (forall b :: 0 <= b < |st.blocks| && b < k ==> r.blocks[b].node == st.blocks[b].node)
    && (forall b :: 0 <= b < |st.blocks| ==> st.blocks[b].after <= r.blocks[b].after)
    && (forall b :: 0 <= b < |st.blocks| && !Mine(k, c, b) ==> st.blocks[b].after == r.blocks[b].after)
  }

  ghost predicate NodesGrew(k: nat, c: nat, m: set<NodeId>, st: State, r: State) {
    forall b, n {:trigger Mentions(r.blocks[b], n)} ::
      0 <= b < |r.blocks| && Mentions(r.blocks[b], n) && !(b < |st.blocks| && Mentions(st.blocks[b], n)) ==>
        n in m && Mine(k, c, b)
  }

  ghost predicate Grew(k: nat, c: nat, m: set<NodeId>, st: State, r: State) {
    EdgesGrew(k, c, st, r) && NodesGrew(k, c, m, st, r) && Ready(k, c, r)
  }

  // ----- primitive steps -----

  lemma AddBlockGrew(k: nat, c: nat, m: set<NodeId>, st: State)
    requires Wf(st) && Ready(k, c, st)
    ensures Grew(k, c, m, st, AddBlock(st))
  {
  }

  lemma AddEdgeGrew(k: nat, c: nat, m: set<NodeId>, st: State, a: nat, b: nat)
    requires Wf(st) && Ready(k, c, st) && a < |st.blocks| && b < |st.blocks| && Mine(k, c, a)
    ensures Grew(k, c, m, st, AddEdge(st, a, b))
  {
  }

  lemma SetNodeGrew(k: nat, c: nat, m: set<NodeId>, st: State, b: nat, node: NodeId)
    requires Wf(st) && Ready(k, c, st) && k <= b < |st.blocks| && node in m
    ensures Grew(k, c, m, st, SetNode(st, b, node))
  {
  }

  lemma AddInstructionGrew(k: nat, c: nat, m: set<NodeId>, st: State, kind: InstructionKind, node: NodeId)
    requires Wf(st) && Ready(k, c, st) && node in m
    ensures Grew(k, c, m, st, AddInstruction(st, kind, node))
  {
  }

  lemma SetCurrentGrew(k: nat, c: nat, m: set<NodeId>, st: State, b: nat)
    requires Wf(st) && Ready(k, c, st) && b < |st.blocks| && Mine(k, c, b)
    ensures Grew(k, c, m, st, SetCurrent(st, b))
  {
  }

  lemma GrewTransitive(k: nat, c: nat, m: set<NodeId>, a: State, b: State, d: State)
    requires Grew(k, c, m, a, b) && Grew(k, c, m, b, d)
    ensures Grew(k, c, m, a, d)
  {
    hide Mentions;
  }

  lemma GrewReflexive(k: nat, c: nat, m: set<NodeId>, st: State)
    requires Ready(k, c, st)
    ensures Grew(k, c, m, st, st)
  {
  }

  /** A step of an inner build, which started later and records fewer nodes. */
  lemma GrewWeaker(k: nat, c: nat, m: set<NodeId>, inner: State, r: State, m': set<NodeId>)
    requires Ready(k, c, inner) && Grew(|inner.blocks|, inner.current, m', inner, r) && m' <= m
    ensures Grew(k, c, m, inner, r)
  {
    forall b | 0 <= b < |inner.blocks| && !Mine(k, c, b)
      ensures inner.blocks[b].after == r.blocks[b].after
    {
      assert !Mine(|inner.blocks|, inner.current, b);
    }
  }

  /** A build leaves the older blocks alone, all but the current one. */
  lemma OldEdges(st: State, r: State, m: set<NodeId>, b: nat)
    requires Grew(|st.blocks|, st.current, m, st, r) && b < |st.blocks| && b != st.current
    ensures b < |r.blocks| && r.blocks[b].after == st.blocks[b].after && b != r.current
  {
    assert !Mine(|st.blocks|, st.current, b);
  }

  lemma EnterConditionGrew(k: nat, c: nat, m: set<NodeId>, st: State, id: NodeId, n: nat, condId: NodeId)
    requires Wf(st) && Ready(k, c, st) && k <= n < |st.blocks| && id in m && condId in m
    ensures Grew(k, c, m, st, EnterCondition(st, id, n, condId))
  {
    hide AddInstruction, AddEdge, SetNode, SetCurrent, EdgesGrew, NodesGrew;
    AddInstructionGrew(k, c, m, st, Branch, id);
    var s1 := AddInstruction(st, Branch, id);
    AddEdgeGrew(k, c, m, s1, s1.current, n);
    var s2 := AddEdge(s1, s1.current, n);
    GrewTransitive(k, c, m, st, s1, s2);
    SetNodeGrew(k, c, m, s2, n, condId);
    var s3 := SetNode(s2, n, condId);
    GrewTransitive(k, c, m, st, s2, s3);
    SetCurrentGrew(k, c, m, s3, n);
    var s4 := SetCurrent(s3, n);
    GrewTransitive(k, c, m, st, s3, s4);
    AddInstructionGrew(k, c, m, s4, Branch, id);
    GrewTransitive(k, c, m, st, s4, AddInstruction(s4, Branch, id));
  }

  lemma EdgeUnlessGrew(k: nat, c: nat, m: set<NodeId>, st: State, skip: bool, b: nat)
    requires Wf(st) && Ready(k, c, st) && b < |st.blocks|
    ensures Grew(k, c, m, st, EdgeUnless(st, skip, b))
  {
    GrewReflexive(k, c, m, st);
    AddEdgeGrew(k, c, m, st, st.current, b);
  }

  lemma ElseBranchGrew(k: nat, c: nat, m: set<NodeId>, st: State, n: nat, impl: Expr, alt: Else)
    requires Wf(st) && Ready(k, c, st) && k <= n && n + 4 <= |st.blocks| && (alt.ElseClause? ==> alt.id in m)
    ensures Grew(k, c, m, st, ElseBranch(st, n, impl, alt))
  {
    hide AddEdge, SetNode, EdgeUnless, ConstantTrue, EdgesGrew, NodesGrew;
    if alt.NoElse? {
      AddEdgeGrew(k, c, m, st, st.current, n + 3);
    } else {
      EdgeUnlessGrew(k, c, m, st, ConstantTrue(impl), n + 2);
      var s := EdgeUnless(st, ConstantTrue(impl), n + 2);
      SetNodeGrew(k, c, m, s, n + 2, alt.id);
      GrewTransitive(k, c, m, st, s, SetNode(s, n + 2, alt.id));
    }
  }

  lemma EnterBranchesGrew(k: nat, c: nat, m: set<NodeId>, st: State, n: nat, impl: Expr, consId: NodeId, alt: Else)
    requires Wf(st) && Ready(k, c, st) && k <= n && n + 4 <= |st.blocks|
    requires consId in m && (alt.ElseClause? ==> alt.id in m)
    ensures Grew(k, c, m, st, EnterBranches(st, n, impl, consId, alt))
  {
    hide AddInstruction, SetNode, SetCurrent, EdgeUnless, ElseBranch, ConstantFalse, EdgesGrew, NodesGrew;
    EdgeUnlessGrew(k, c, m, st, ConstantFalse(impl), n + 1);
    var s3 := EdgeUnless(st, ConstantFalse(impl), n + 1);
    SetNodeGrew(k, c, m, s3, n + 1, consId);
    var s4 := SetNode(s3, n + 1, consId);
    GrewTransitive(k, c, m, st, s3, s4);
    ElseBranchGrew(k, c, m, s4, n, impl, alt);
    var s5 := ElseBranch(s4, n, impl, alt);
    GrewTransitive(k, c, m, st, s4, s5);
    SetCurrentGrew(k, c, m, s5, n + 1);
    var s6 := SetCurrent(s5, n + 1);
    GrewTransitive(k, c, m, st, s5, s6);
    AddInstructionGrew(k, c, m, s6, Branch, consId);
    GrewTransitive(k, c, m, st, s6, AddInstruction(s6, Branch, consId));
  }

  lemma AddBlocksGrew(k: nat, c: nat, m: set<NodeId>, st: State)
    requires Wf(st) && Ready(k, c, st)
    ensures Grew(k, c, m, st, AddBlock(AddBlock(AddBlock(st))))
    ensures Grew(k, c, m, st, AddBlock(AddBlock(AddBlock(AddBlock(st)))))
  {
    hide AddBlock, EdgesGrew, NodesGrew;
    var s1 := AddBlock(st);
    var s2 := AddBlock(s1);
    var s3 := AddBlock(s2);
    AddBlockGrew(k, c, m, st);
    AddBlockGrew(k, c, m, s1);
    GrewTransitive(k, c, m, st, s1, s2);
    AddBlockGrew(k, c, m, s2);
    GrewTransitive(k, c, m, st, s2, s3);
    AddBlockGrew(k, c, m, s3);
    GrewTransitive(k, c, m, st, s3, AddBlock(s3));
  }

  lemma EnterIfGrew(k: nat, c: nat, m: set<NodeId>, st: State, id: NodeId, cond: Expr, impl: Expr, consId: NodeId,
      alt: Else)
    requires Wf(st) && Ready(k, c, st) && {id, cond.id, consId} <= m && (alt.ElseClause? ==> alt.id in m)
    ensures Grew(k, c, m, st, EnterIf(st, id, cond, impl, consId, alt))
  {
    hide AddBlock, EnterCondition, EnterBranches, EdgesGrew, NodesGrew;
    var n := |st.blocks|;
    AddBlocksGrew(k, c, m, st);
    var s1 := AddBlock(AddBlock(AddBlock(AddBlock(st))));
    EnterConditionGrew(k, c, m, s1, id, n, cond.id);
    var s2 := EnterCondition(s1, id, n, cond.id);
    GrewTransitive(k, c, m, st, s1, s2);
    EnterBranchesGrew(k, c, m, s2, n, impl, consId, alt);
    GrewTransitive(k, c, m, st, s2, EnterBranches(s2, n, impl, consId, alt));
  }

  lemma WhileBranchesGrew(k: nat, c: nat, m: set<NodeId>, st: State, n: nat, impl: Expr, bodyId: NodeId)
    requires Wf(st) && Ready(k, c, st) && k <= n && n + 3 <= |st.blocks| && bodyId in m
    ensures Grew(k, c, m, st, WhileBranches(st, n, impl, bodyId))
  {
    hide AddEdge, SetNode, SetCurrent, EdgeUnless, ConstantTrue, ConstantFalse, EdgesGrew, NodesGrew;
    GrewReflexive(k, c, m, st);
    AddEdgeGrew(k, c, m, st, n, n + 2);
    var s4 := if ConstantTrue(impl) then st else AddEdge(st, n, n + 2);
    EdgeUnlessGrew(k, c, m, s4, ConstantFalse(impl), n + 1);
    var s5 := EdgeUnless(s4, ConstantFalse(impl), n + 1);
    GrewTransitive(k, c, m, st, s4, s5);
    SetNodeGrew(k, c, m, s5, n + 1, bodyId);
    var s6 := SetNode(s5, n + 1, bodyId);
    GrewTransitive(k, c, m, st, s5, s6);
    SetCurrentGrew(k, c, m, s6, n + 1);
    GrewTransitive(k, c, m, st, s6, SetCurrent(s6, n + 1));
  }

  lemma EnterWhileGrew(k: nat, c: nat, m: set<NodeId>, st: State, id: NodeId, cond: Expr, impl: Expr, bodyId: NodeId)
    requires Wf(st) && Ready(k, c, st) && {id, cond.id, bodyId} <= m
    ensures Grew(k, c, m, st, EnterWhile(st, id, cond, impl, bodyId))
  {
    hide AddBlock, EnterCondition, WhileBranches, EdgesGrew, NodesGrew;
    var n := |st.blocks|;
    AddBlocksGrew(k, c, m, st);
    var s1 := AddBlock(AddBlock(AddBlock(st)));
    var s2 := PushLoop(s1, n, n + 2);
    PushLoopGrew(k, c, m, s1, n, n + 2);
    GrewTransitive(k, c, m, st, s1, s2);
    EnterConditionGrew(k, c, m, s2, id, n, cond.id);
    var s3 := EnterCondition(s2, id, n, cond.id);
    GrewTransitive(k, c, m, st, s2, s3);
    WhileBranchesGrew(k, c, m, s3, n, impl, bodyId);
    GrewTransitive(k, c, m, st, s3, WhileBranches(s3, n, impl, bodyId));
  }

  /** Steps that leave blocks and cursor alone. */
  lemma PushLoopGrew(k: nat, c: nat, m: set<NodeId>, st: State, cont: nat, brk: nat)
    requires Wf(st) && Ready(k, c, st) && cont < |st.blocks| && brk < |st.blocks|
    ensures Grew(k, c, m, st, PushLoop(st, cont, brk))
  {
  }

  lemma ForInInitGrew(k: nat, c: nat, m: set<NodeId>, st: State, id: NodeId)
    requires Wf(st) && Ready(k, c, st) && id in m
    ensures Grew(k, c, m, st, ForInInit(st, id))
  {
    hide AddBlock, AddInstruction, AddEdge, SetCurrent, EdgesGrew, NodesGrew;
    var n := ForInBase(st);
    AddInstructionGrew(k, c, m, st, Branch, id);
    var s0 := AddInstruction(st, Branch, id);
    hide ForInBase;
    AddBlocksGrew(k, c, m, s0);
    var s1 := AddBlock(AddBlock(AddBlock(AddBlock(s0))));
    GrewTransitive(k, c, m, st, s0, s1);
    var s2 := PushLoop(s1, n + 1, n + 3);
    PushLoopGrew(k, c, m, s1, n + 1, n + 3);
    GrewTransitive(k, c, m, st, s1, s2);
    AddEdgeGrew(k, c, m, s2, s2.current, n);
    var s3 := AddEdge(s2, s2.current, n);
    GrewTransitive(k, c, m, st, s2, s3);
    SetCurrentGrew(k, c, m, s3, n);
    GrewTransitive(k, c, m, st, s3, SetCurrent(s3, n));
  }

  lemma EnterForInGrew(k: nat, c: nat, m: set<NodeId>, st: State, id: NodeId, right: NodeId, bodyId: NodeId)
    requires Wf(st) && Ready(k, c, st) && {id, right, bodyId} <= m
    ensures Grew(k, c, m, st, EnterForIn(st, id, right, bodyId))
  {
    hide AddInstruction, AddEdge, SetNode, SetCurrent, ForInInit, ForInBase, EdgesGrew, NodesGrew;
    var n := ForInBase(st);
    ForInInitGrew(k, c, m, st, id);
    var s1 := ForInInit(st, id);
    AddInstructionGrew(k, c, m, s1, Assign, right);
    var s2 := AddInstruction(s1, Assign, right);
    GrewTransitive(k, c, m, st, s1, s2);
    AddEdgeGrew(k, c, m, s2, n, n + 1);
    var s3 := AddEdge(s2, n, n + 1);
    GrewTransitive(k, c, m, st, s2, s3);
    SetCurrentGrew(k, c, m, s3, n + 1);
    var s4 := SetCurrent(s3, n + 1);
    GrewTransitive(k, c, m, st, s3, s4);
    ForInNextGrew(k, c, m, s4, n, right, bodyId);
    GrewTransitive(k, c, m, st, s4, ForInNext(s4, n, right, bodyId));
  }

  lemma ForInNextGrew(k: nat, c: nat, m: set<NodeId>, st: State, n: nat, right: NodeId, bodyId: NodeId)
    requires Wf(st) && Ready(k, c, st) && k <= n && n + 4 <= |st.blocks| && right in m && bodyId in m
    ensures Grew(k, c, m, st, ForInNext(st, n, right, bodyId))
  {
    hide AddInstruction, AddEdge, SetNode, SetCurrent, EdgesGrew, NodesGrew;
    AddInstructionGrew(k, c, m, st, Assign, right);
    var s1 := AddInstruction(st, Assign, right);
    AddInstructionGrew(k, c, m, s1, Branch, right);
    var s2 := AddInstruction(s1, Branch, right);
    GrewTransitive(k, c, m, st, s1, s2);
    AddEdgeGrew(k, c, m, s2, n + 1, n + 2);
    var s3 := AddEdge(s2, n + 1, n + 2);
    GrewTransitive(k, c, m, st, s2, s3);
    AddEdgeGrew(k, c, m, s3, s2.current, n + 3);
    var s4 := AddEdge(s3, s2.current, n + 3);
    GrewTransitive(k, c, m, st, s3, s4);
    SetNodeGrew(k, c, m, s4, n + 2, bodyId);
    var s5 := SetNode(s4, n + 2, bodyId);
    GrewTransitive(k, c, m, st, s4, s5);
    SetCurrentGrew(k, c, m, s5, n + 2);
    GrewTransitive(k, c, m, st, s5, SetCurrent(s5, n + 2));
  }

  lemma JoinToGrew(k: nat, c: nat, m: set<NodeId>, st: State, b: nat)
    requires Wf(st) && Ready(k, c, st) && b < |st.blocks|
    ensures Grew(k, c, m, st, JoinTo(st, b))
  {
    GrewReflexive(k, c, m, st);
    AddEdgeGrew(k, c, m, st, st.current, b);
  }

  lemma LeaveIfGrew(k: nat, c: nat, m: set<NodeId>, st: State, n: nat, alt: Else)
    requires Wf(st) && Ready(k, c, st) && k <= n && n + 4 <= |st.blocks|
    ensures Grew(k, c, m, st, LeaveIf(st, n, alt))
  {
    hide JoinTo, SetCurrent, EdgesGrew, NodesGrew;
    JoinToGrew(k, c, m, st, n + 3);
    var s1 := JoinTo(st, n + 3);
    SetCurrentGrew(k, c, m, s1, n + 2);
    var s2 := SetCurrent(s1, n + 2);
    GrewTransitive(k, c, m, st, s1, s2);
    JoinToGrew(k, c, m, s2, n + 3);
    GrewTransitive(k, c, m, st, s2, JoinTo(s2, n + 3));
    var s3 := if alt.NoElse? then s1 else JoinTo(s2, n + 3);
    SetCurrentGrew(k, c, m, s3, n + 3);
    GrewTransitive(k, c, m, st, s3, SetCurrent(s3, n + 3));
  }

  lemma LeaveLoopGrew(k: nat, c: nat, m: set<NodeId>, st: State, cont: nat, after: nat)
    requires Wf(st) && Ready(k, c, st) && cont < |st.blocks| && k <= after < |st.blocks|
    ensures Grew(k, c, m, st, LeaveLoop(st, cont, after))
  {
    hide JoinTo, SetCurrent, Mentions;
    JoinToGrew(k, c, m, st, cont);
    SetCurrentGrew(k, c, m, JoinTo(st, cont), after);
  }

  lemma BuildJumpGrew(k: nat, c: nat, m: set<NodeId>, st: State, id: NodeId, target: nat)
    requires Wf(st) && Ready(k, c, st) && id in m && target < |st.blocks|
    ensures Grew(k, c, m, st, BuildJump(st, id, target))
  {
    hide AddBlock, AddInstruction, AddEdge, SetCurrent, EdgesGrew, NodesGrew;
    var n := |st.blocks|;
    AddBlockGrew(k, c, m, st);
    var s1 := AddBlock(st);
    SetCurrentGrew(k, c, m, s1, n);
    var s2 := SetCurrent(s1, n);
    GrewTransitive(k, c, m, st, s1, s2);
    AddInstructionGrew(k, c, m, s2, Branch, id);
    var s3 := AddInstruction(s2, Branch, id);
    GrewTransitive(k, c, m, st, s2, s3);
    AddEdgeGrew(k, c, m, s3, st.current, n);
    var s4 := AddEdge(s3, st.current, n);
    GrewTransitive(k, c, m, st, s3, s4);
    AddEdgeGrew(k, c, m, s4, n, target);
    GrewTransitive(k, c, m, st, s4, AddEdge(s4, n, target));
  }

  lemma BuildReturnGrew(k: nat, c: nat, m: set<NodeId>, st: State, id: NodeId)
    requires Wf(st) && Ready(k, c, st) && id in m
    ensures Grew(k, c, m, st, BuildReturn(st, id))
  {
    hide AddBlock, AddInstruction, AddEdge, SetCurrent, EdgesGrew, NodesGrew;
    var n := |st.blocks|;
    AddBlockGrew(k, c, m, st);
    AddBlockGrew(k, c, m, AddBlock(st));
    var s1 := AddBlock(AddBlock(st));
    GrewTransitive(k, c, m, st, AddBlock(st), s1);
    SetCurrentGrew(k, c, m, s1, n);
    var s2 := SetCurrent(s1, n);
    GrewTransitive(k, c, m, st, s1, s2);
    AddInstructionGrew(k, c, m, s2, Jump, id);
    var s3 := AddInstruction(s2, Jump, id);
    GrewTransitive(k, c, m, st, s2, s3);
    AddEdgeGrew(k, c, m, s3, st.current, n);
    var s4 := AddEdge(s3, st.current, n);
    GrewTransitive(k, c, m, st, s3, s4);
    AddEdgeGrew(k, c, m, s4, n, s4.funs[CurrentFun(s4)].end);
    var s5 := AddEdge(s4, n, s4.funs[CurrentFun(s4)].end);
    GrewTransitive(k, c, m, st, s4, s5);
    SetCurrentGrew(k, c, m, s5, n + 1);
    GrewTransitive(k, c, m, st, s5, SetCurrent(s5, n + 1));
  }

  lemma BeginFunctionGrew(k: nat, c: nat, m: set<NodeId>, st: State, id: NodeId)
    requires Wf(st) && Ready(k, c, st)
    ensures Grew(k, c, m, st, BeginFunction(st, id))
  {
  }

  lemma LeaveFunctionGrew(k: nat, c: nat, m: set<NodeId>, st: State, back: nat)
    requires Wf(st) && Ready(k, c, st) && |st.stack| >= 2 && back < |st.blocks| && Mine(k, c, back)
    ensures Grew(k, c, m, st, LeaveFunction(st, back))
  {
    hide AddEdge, Mentions;
    var end := st.funs[CurrentFun(st)].end;
    AddEdgeGrew(k, c, m, st, st.current, end);
    var s := AddEdge(st, st.current, end);
    var r := LeaveFunction(st, back);
    assert r.blocks == s.blocks;
    assert EdgesGrew(k, c, st, r);
    assert NodesGrew(k, c, m, st, r);
    assert Ready(k, c, r);
  }

  // ----- whole statements -----

  /** The nodes a statement records before its child is built. */
  function EnterIds(s: Stmt): set<NodeId>
    requires IsNested(s)
  {
    match s
    case If(id, cond, cons, alt) => {id, cond.id, cons.id} + if alt.ElseClause? then {alt.id} else {}
    case While(id, cond, body) => {id, cond.id, body.id}
    case ForIn(id, right, body) => {id, right, body.id}
    case Function(id, _, _) => {id}
  }

  lemma EnterGrew(s: Stmt, st: State)
    requires Wf(st) && IsNested(s) && Enter(s, st).Ok?
    ensures Grew(|st.blocks|, st.current, EnterIds(s), st, Enter(s, st).value)
  {
    hide EnterIf, EnterWhile, EnterForIn, AddInstruction, BeginFunction, EdgesGrew, NodesGrew;
    var k, c, m := |st.blocks|, st.current, EnterIds(s);
    match s
    case If(id, cond, cons, alt) => EnterIfGrew(k, c, m, st, id, cond, ConditionNode(cond).value, cons.id, alt);
    case While(id, cond, body) => EnterWhileGrew(k, c, m, st, id, cond, ConditionNode(cond).value, body.id);
    case ForIn(id, right, body) => EnterForInGrew(k, c, m, st, id, right, body.id);
    case Function(id, _, _) =>
      AddInstructionGrew(k, c, m, st, Assign, id);
      var outer := AddInstruction(st, Assign, id);
      BeginFunctionGrew(k, c, m, outer, id);
      GrewTransitive(k, c, m, st, outer, BeginFunction(outer, id));
  }

  /** Leaving a statement records nothing. */
  lemma LeaveGrew(s: Stmt, st: State, s1: State)
    requires Wf(st) && IsNested(s) && Enter(s, st).Ok? && Grows(Enter(s, st).value, s1)
    requires Ready(|st.blocks|, st.current, s1)
    ensures Grew(|st.blocks|, st.current, {}, s1, Leave(s, st, s1))
  {
    hide EnterIf, EnterWhile, EnterForIn, AddInstruction, LeaveIf, LeaveLoop, LeaveFunction, ForInBase, EdgesGrew,
        NodesGrew;
    var k, c, m := |st.blocks|, st.current, {};
    match s
    case If(_, _, _, alt) => LeaveIfGrew(k, c, m, s1, |st.blocks|, alt);
    case While(_, _, _) => LeaveLoopGrew(k, c, m, s1, |st.blocks|, |st.blocks| + 2);
    case ForIn(_, _, _) => LeaveLoopGrew(k, c, m, s1, ForInBase(st) + 1, ForInBase(st) + 3);
    case Function(id, _, _) =>
      AddInstructionGrew(k, c, {id}, st, Assign, id);
      LeaveFunctionGrew(k, c, m, s1, AddInstruction(st, Assign, id).current);
  }

  lemma GrewMore(k: nat, c: nat, m: set<NodeId>, m': set<NodeId>, st: State, r: State)
    requires Grew(k, c, m, st, r) && m <= m'
    ensures Grew(k, c, m', st, r)
  {
  }

  lemma BuildLeafGrew(s: Stmt, st: State)
    requires Wf(st) && !IsNested(s) && !s.Block? && BuildLeaf(s, st).Ok?
    ensures Grew(|st.blocks|, st.current, Built(s), st, BuildLeaf(s, st).value)
  {
    hide BuildJump, BuildReturn, AddInstruction, EdgesGrew, NodesGrew;
    var k, c, m := |st.blocks|, st.current, Built(s);
    match s
    case Plain(_) => GrewReflexive(k, c, m, st);
    case Simple(id, kind) => AddInstructionGrew(k, c, m, st, kind, id);
    case Break(id) => BuildJumpGrew(k, c, m, st, id, Last(st.brk));
    case Continue(id) => BuildJumpGrew(k, c, m, st, id, Last(st.cont));
    case Return(id) => BuildReturnGrew(k, c, m, st, id);
  }

  /** Building a statement adds edges only out of the block that was current or out
      of new blocks, and records only the statement's own nodes, in those blocks. */
  lemma {:induction false} BuildGrew(s: Stmt, st: State)
    requires Wf(st) && Build(s, st).Ok?
    ensures Grew(|st.blocks|, st.current, Built(s), st, Build(s, st).value)
    decreases s
  {
    hide Enter, Leave, BuildLeaf, EdgesGrew, NodesGrew;
    if s.Block? {
      BuildAllGrew(s.children, st);
    } else if !IsNested(s) {
      BuildLeafGrew(s, st);
    } else {
      var k, c, m := |st.blocks|, st.current, Built(s);
      EnterGrew(s, st);
      var inner := Enter(s, st).value;
      BuildGrew(Child(s), inner);
      var s1 := Build(Child(s), inner).value;
      GrewMore(k, c, EnterIds(s), m, st, inner);
      GrewWeaker(k, c, m, inner, s1, Built(Child(s)));
      GrewTransitive(k, c, m, st, inner, s1);
      LeaveGrew(s, st, s1);
      GrewMore(k, c, {}, m, s1, Leave(s, st, s1));
      GrewTransitive(k, c, m, st, s1, Leave(s, st, s1));
    }
  }

  lemma {:induction false} BuildAllGrew(ss: Stmts, st: State)
    requires Wf(st) && BuildAll(ss, st).Ok?
    ensures Grew(|st.blocks|, st.current, BuiltAll(ss), st, BuildAll(ss, st).value)
    decreases ss
  {
    hide EdgesGrew, NodesGrew;
    var k, c, m := |st.blocks|, st.current, BuiltAll(ss);
    match ss
    case Nil => GrewReflexive(k, c, m, st);
    case Cons(s, rest) =>
      BuildGrew(s, st);
      var s1 := Build(s, st).value;
      GrewReflexive(k, c, m, st);
      GrewWeaker(k, c, m, st, s1, Built(s));
      BuildAllGrew(rest, s1);
      GrewWeaker(k, c, m, s1, BuildAll(rest, s1).value, BuiltAll(rest));
      GrewTransitive(k, c, m, st, s1, BuildAll(rest, s1).value);
  }

  /** One step of Build on a nested statement. */
  lemma BuildNested(s: Stmt, st: State)
    requires Wf(st) && IsNested(s) && Build(s, st).Ok?
    ensures Enter(s, st).Ok? && Build(Child(s), Enter(s, st).value).Ok?
    ensures Build(s, st) == Ok(Leave(s, st, Build(Child(s), Enter(s, st).value).value))
  {
    hide Enter, Leave, Wf;
  }
}
