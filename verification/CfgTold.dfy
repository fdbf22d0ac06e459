/** What the report will say, known while the graph is built: a node is told as soon as
    its block has been given it without a way in. */
module CfgTold {
  import opened Options
  import opened CfgSyntax
  import opened CfgGraph

  /** The node a block is reported with: its own, else that of its first instruction. */
  function ReportNode(b: Vertex): Option<NodeId> {
    if b.node.Some? then b.node else if b.code != [] then Some(b.code[0].node) else None
  }

  predicate HasWayIn(st: State, b: nat) {
    exists a :: 0 <= a < |st.blocks| && b in st.blocks[a].after
  }

  predicate IsStart(st: State, b: nat) {
    exists f :: 0 <= f < |st.funs| && st.funs[f].start == b
  }

  predicate Quiet(st: State, b: nat)
    requires b < |st.blocks|
  {
    ReportNode(st.blocks[b]) == None
  }

  ghost function Told(st: State): set<NodeId> {
    set b | 0 <= b < |st.blocks| && !HasWayIn(st, b) && !IsStart(st, b) && ReportNode(st.blocks[b]).Some?
      :: ReportNode(st.blocks[b]).value
  }

  /** The next instruction will be told. */
  predicate Lost(st: State)
    requires Wf(st)
  {
    var c := st.current;
    st.blocks[c].after != [] || (!HasWayIn(st, c) && !IsStart(st, c) && Quiet(st, c))
  }

  // ----- the statements that are told -----

  /** A `break` that the builder sees leaves the statement. */
  predicate BreaksOut(s: Stmt) {
    match s
    case Block(_, role, children) => role.InOrder? && BreaksOutAll(children)
    case If(_, _, cons, _) => BreaksOut(cons)
    case Break(_) => true
    case _ => false
  }

  predicate BreaksOutAll(ss: Stmts) {
    match ss
    case Nil => false
    case Cons(s, rest) => BreaksOut(s) || BreaksOutAll(rest)
  }

  /** Is the way to the next statement lost once `s` is built? */
  predicate LostAfter(s: Stmt, lost: bool) {
    match s
    case Plain(_) => lost
    case Block(_, _, children) => LostAfterAll(children, lost)
    case While(_, _, body) => !EndsByGuard(s) && !BreaksOut(body)
    case Break(_) => true
    case Continue(_) => true
    case Return(_) => true
    case _ => false
  }

  predicate LostAfterAll(ss: Stmts, lost: bool) {
    match ss
    case Nil => lost
    case Cons(s, rest) => LostAfterAll(rest, LostAfter(s, lost))
  }

  /** The condition is constantly true, or constantly false, for the builder. */
  predicate Pruned(cond: Expr, value: bool) {
    ConditionNode(cond).Some? &&
    if value then ConstantTrue(ConditionNode(cond).value) else ConstantFalse(ConditionNode(cond).value)
  }

  function Only(b: bool, id: NodeId): set<NodeId> {
    if b then {id} else {}
  }

  /** The nodes that building `s` adds to the report. */
  function ReportedBy(s: Stmt, lost: bool): set<NodeId> {
    match s
    case Simple(id, _) => Only(lost, id)
    case Block(_, _, children) => ReportedByAll(children, lost)
    case If(id, cond, cons, alt) =>
      Only(lost, id) + Only(Pruned(cond, false), cons.id) + ReportedBy(cons, false)
      + if alt.ElseClause? then Only(Pruned(cond, true), alt.id) else {}
    case While(id, cond, body) => Only(lost, id) + Only(Pruned(cond, false), body.id) + ReportedBy(body, false)
    case ForIn(id, _, body) => Only(lost, id) + ReportedBy(body, false)
    case Function(id, _, body) => Only(lost, id) + ReportedBy(body, false)
    case _ => {}
  }

  function ReportedByAll(ss: Stmts, lost: bool): set<NodeId> {
    match ss
    case Nil => {}
    case Cons(s, rest) => ReportedBy(s, lost) + ReportedByAll(rest, LostAfter(s, lost))
  }

  // ----- what each step of the builder tells -----

  ghost predicate SameWays(st: State, r: State) {
    forall b: nat :: HasWayIn(r, b) <==> HasWayIn(st, b)
  }

  ghost predicate SameStarts(st: State, r: State) {
    forall b: nat :: IsStart(r, b) <==> IsStart(st, b)
  }

  /** Block `b` has the same edges out, and is quiet if it was. */
  predicate SameView(st: State, r: State, b: nat) {
    b < |st.blocks| && b < |r.blocks| && r.blocks[b].after == st.blocks[b].after && (Quiet(r, b) <==> Quiet(st, b))
  }

  ghost predicate SameViews(st: State, r: State, but: nat) {
    |st.blocks| <= |r.blocks| && forall b: nat :: b < |st.blocks| && b != but ==> SameView(st, r, b)
  }

  /** Nothing is told by new blocks, and nothing else by old ones. */
  lemma NothingTold(st: State, r: State)
    requires |st.blocks| <= |r.blocks|
    requires forall b :: 0 <= b < |st.blocks| ==>
              (HasWayIn(r, b) <==> HasWayIn(st, b)) || ReportNode(st.blocks[b]) == None
    requires forall b :: 0 <= b < |st.blocks| ==> (IsStart(r, b) <==> IsStart(st, b))
    requires forall b :: 0 <= b < |st.blocks| ==> ReportNode(r.blocks[b]) == ReportNode(st.blocks[b])
    requires forall b :: |st.blocks| <= b < |r.blocks| ==> HasWayIn(r, b) || ReportNode(r.blocks[b]) == None
    ensures Told(r) == Told(st)
  {
    hide HasWayIn, IsStart, ReportNode;
  }

  /** A step that gives one block its node, told or not. */
  lemma OneTold(st: State, r: State, c: nat, node: NodeId, told: bool)
    requires |r.blocks| == |st.blocks| && c < |st.blocks| && SameWays(st, r) && SameStarts(st, r)
    requires forall b: nat :: b < |st.blocks| && b != c ==> ReportNode(r.blocks[b]) == ReportNode(st.blocks[b])
    requires if HasWayIn(st, c) || IsStart(st, c) then !told
             else if told then Quiet(st, c) && ReportNode(r.blocks[c]) == Some(node)
             else ReportNode(r.blocks[c]) == ReportNode(st.blocks[c])
    ensures Told(r) == Told(st) + Only(told, node)
  {
    hide HasWayIn, IsStart, ReportNode;
  }

  lemma AddBlockTold(st: State)
    requires Wf(st)
    ensures var r, n := AddBlock(st), |st.blocks|;
      && Told(r) == Told(st) && SameWays(st, r) && SameStarts(st, r) && SameViews(st, r, n)
      && !HasWayIn(r, n) && !IsStart(r, n) && Quiet(r, n) && r.blocks[n].after == []
  {
    var r, n := AddBlock(st), |st.blocks|;
    assert forall a :: 0 <= a < n ==> BlockInRange(st.blocks[a], n) && r.blocks[a] == st.blocks[a];
    assert forall f :: 0 <= f < |st.funs| ==> FunInRange(st.funs[f], n) && r.funs[f].start == st.funs[f].start;
    assert SameWays(st, r);
    assert SameStarts(st, r);
  }

  lemma EdgeWays(st: State, a: nat, b: nat)
    requires Wf(st) && a < |st.blocks| && b < |st.blocks|
    ensures var r := AddEdge(st, a, b);
      SameStarts(st, r) && forall x: nat :: HasWayIn(r, x) <==> HasWayIn(st, x) || x == b
  {
    var r := AddEdge(st, a, b);
    forall x: nat
      ensures HasWayIn(r, x) <==> HasWayIn(st, x) || x == b
    {
      assert b in r.blocks[a].after;
      if HasWayIn(st, x) {
        var c :| 0 <= c < |st.blocks| && x in st.blocks[c].after;
        assert x in r.blocks[c].after;
      }
    }
    assert SameStarts(st, r);
  }

  lemma AddEdgeTold(st: State, a: nat, b: nat)
    requires Wf(st) && a < |st.blocks| && b < |st.blocks|
    requires Quiet(st, b) || HasWayIn(st, b)
    ensures var r := AddEdge(st, a, b);
      && Told(r) == Told(st) && SameStarts(st, r) && SameViews(st, r, a) && r.current == st.current
      && (Quiet(r, a) <==> Quiet(st, a)) && r.blocks[a].after == st.blocks[a].after + [b]
      && forall x: nat :: HasWayIn(r, x) <==> HasWayIn(st, x) || x == b
  {
    hide HasWayIn, IsStart, Told, Wf;
    EdgeWays(st, a, b);
    NothingTold(st, AddEdge(st, a, b));
  }

  lemma SetNodeTold(st: State, b: nat, node: NodeId)
    requires Wf(st) && b < |st.blocks|
    requires HasWayIn(st, b) || (Quiet(st, b) && !IsStart(st, b))
    ensures var r := SetNode(st, b, node);
      && Told(r) == Told(st) + Only(!HasWayIn(st, b), node) && SameWays(st, r) && SameStarts(st, r)
      && SameViews(st, r, b) && !Quiet(r, b) && r.blocks[b].after == st.blocks[b].after && r.current == st.current
  {
    hide HasWayIn, Told;
    var r := SetNode(st, b, node);
    SameEdgesSameWays(st, r);
    assert SameStarts(st, r);
    hide IsStart;
    OneTold(st, r, b, node, !HasWayIn(st, b));
  }

  lemma SetCurrentTold(st: State, b: nat)
    requires Wf(st) && b < |st.blocks|
    ensures var r := SetCurrent(st, b);
      && Told(r) == Told(st) && SameWays(st, r) && SameStarts(st, r) && SameViews(st, r, |st.blocks|) && r.current == b
  {
    var r := SetCurrent(st, b);
    assert SameWays(st, r);
    assert SameStarts(st, r);
  }

  lemma SameEdgesSameWays(st: State, r: State)
    requires |r.blocks| == |st.blocks| && forall b :: 0 <= b < |st.blocks| ==> r.blocks[b].after == st.blocks[b].after
    ensures SameWays(st, r)
  {
  }

  lemma AppendCodeTold(st: State, kind: InstructionKind, node: NodeId)
    requires Wf(st) && st.blocks[st.current].after == []
    ensures var r := AppendCode(st, kind, node); var c := st.current;
      && Told(r) == Told(st) + Only(Lost(st), node) && SameWays(st, r) && SameStarts(st, r)
      && SameViews(st, r, c) && !Quiet(r, c) && r.blocks[c].after == []
  {
    hide HasWayIn, Told;
    var r, c := AppendCode(st, kind, node), st.current;
    SameEdgesSameWays(st, r);
    assert SameStarts(st, r);
    hide IsStart;
    OneTold(st, r, c, node, Lost(st));
  }

  lemma AddInstructionTold(st: State, kind: InstructionKind, node: NodeId)
    requires Wf(st)
    ensures var r := AddInstruction(st, kind, node); var c := r.current;
      && Told(r) == Told(st) + Only(Lost(st), node) && SameWays(st, r) && SameStarts(st, r)
      && SameViews(st, r, c) && c < |r.blocks| && !Quiet(r, c) && r.blocks[c].after == [] && !Lost(r)
      && (c == st.current || c >= |st.blocks|)
  {
    hide AppendCode, AddBlock, HasWayIn, IsStart;
    var open := OpenBlock(st);
    if st.blocks[st.current].after == [] {
      AppendCodeTold(st, kind, node);
    } else {
      AddBlockTold(st);
      SetCurrentTold(AddBlock(st), |st.blocks|);
      assert open == SetCurrent(AddBlock(st), |st.blocks|);
      AppendCodeTold(open, kind, node);
      assert Lost(open) && Lost(st);
      forall b: nat | b < |st.blocks|
        ensures SameView(st, AddInstruction(st, kind, node), b)
      {
        assert SameView(st, AddBlock(st), b) && SameView(AddBlock(st), open, b);
        assert SameView(open, AppendCode(open, kind, node), b);
      }
    }
  }

  // ----- what entering a statement tells -----

  /** A block that nothing has been done with yet. */
  predicate Untouched(st: State, b: nat) {
    b < |st.blocks| && Quiet(st, b) && st.blocks[b].after == [] && !HasWayIn(st, b) && !IsStart(st, b)
  }

  /** Blocks below `n` gained no way in. */
  ghost predicate SameWaysBelow(st: State, r: State, n: nat) {
    forall b: nat :: b < n ==> (HasWayIn(r, b) <==> HasWayIn(st, b))
  }

  lemma BlockAddedTold(st: State)
    requires Wf(st)
    ensures var n := |st.blocks|; var r := AddBlock(st);
      && |r.blocks| == n + 1 && r.current == st.current && Wf(r)
      && Told(r) == Told(st) && SameWays(st, r) && SameStarts(st, r) && Lost(r) == Lost(st)
      && Untouched(r, n) && forall b: nat :: Untouched(st, b) ==> Untouched(r, b)
  {
    hide AddBlock, HasWayIn, IsStart, Told, Quiet;
    AddBlockTold(st);
    forall b: nat | Untouched(st, b)
      ensures Untouched(AddBlock(st), b)
    {
      assert SameView(st, AddBlock(st), b);
    }
    assert SameView(st, AddBlock(st), st.current);
  }

  lemma NewBlocksTold(st: State)
    requires Wf(st)
    ensures var n := |st.blocks|; var r := AddBlock(AddBlock(AddBlock(st)));
      && |r.blocks| == n + 3 && r.current == st.current
      && Told(r) == Told(st) && SameWays(st, r) && SameStarts(st, r) && Lost(r) == Lost(st)
      && Untouched(r, n) && Untouched(r, n + 1) && Untouched(r, n + 2)
    ensures var n := |st.blocks|; var r := AddBlock(AddBlock(AddBlock(AddBlock(st))));
      && |r.blocks| == n + 4 && r.current == st.current
      && Told(r) == Told(st) && SameWays(st, r) && SameStarts(st, r) && Lost(r) == Lost(st)
      && Untouched(r, n) && Untouched(r, n + 1) && Untouched(r, n + 2) && Untouched(r, n + 3)
  {
    hide AddBlock, HasWayIn, IsStart, Told, Untouched, Lost, Wf;
    var a := AddBlock(st);
    var b := AddBlock(a);
    BlockAddedTold(st);
    BlockAddedTold(a);
    BlockAddedTold(b);
    BlockAddedTold(AddBlock(b));
  }

  lemma ConditionTold(st: State, id: NodeId, n: nat, condId: NodeId)
    requires Wf(st) && Untouched(st, n) && n != st.current
    ensures var r := EnterCondition(st, id, n, condId);
      && Told(r) == Told(st) + Only(Lost(st), id) && SameStarts(st, r) && |r.blocks| >= |st.blocks|
      && (forall x: nat :: HasWayIn(r, x) <==> HasWayIn(st, x) || x == n)
      && (forall x: nat :: x < |st.blocks| && x != n && x != st.current ==> SameView(st, r, x))
      && r.current == n && r.blocks[n].after == [] && !Lost(r)
  {
    hide HasWayIn, IsStart, Told, AddInstruction, AddEdge, SetNode, SetCurrent, Quiet, Wf;
    AddInstructionTold(st, Branch, id);
    var s1 := AddInstruction(st, Branch, id);
    assert SameView(st, s1, n);
    AddEdgeTold(s1, s1.current, n);
    var s2 := AddEdge(s1, s1.current, n);
    assert SameView(s1, s2, n);
    SetNodeTold(s2, n, condId);
    var s3 := SetNode(s2, n, condId);
    SetCurrentTold(s3, n);
    var s4 := SetCurrent(s3, n);
    assert SameView(s3, s4, n);
    AddInstructionTold(s4, Branch, id);
    var r := AddInstruction(s4, Branch, id);
    forall x: nat | x < |st.blocks| && x != n && x != st.current
      ensures SameView(st, r, x)
    {
      assert SameView(st, s1, x) && SameView(s1, s2, x) && SameView(s2, s3, x);
      assert SameView(s3, s4, x) && SameView(s4, r, x);
    }
  }

  lemma EdgeUnlessTold(st: State, skip: bool, b: nat, node: NodeId)
    requires Wf(st) && Untouched(st, b) && b != st.current
    ensures var r := SetNode(EdgeUnless(st, skip, b), b, node); var c := st.current;
      && Told(r) == Told(st) + Only(skip, node) && SameStarts(st, r) && |r.blocks| == |st.blocks|
      && (forall x: nat :: HasWayIn(r, x) <==> HasWayIn(st, x) || (!skip && x == b))
      && (forall x: nat :: x < |st.blocks| && x != b && x != c ==> SameView(st, r, x))
      && r.current == c && !Quiet(r, b) && r.blocks[b].after == []
  {
    hide HasWayIn, IsStart, Told, AddEdge, SetNode, Quiet, Wf;
    var s1 := EdgeUnless(st, skip, b);
    if !skip {
      InBlocks(st);
      AddEdgeTold(st, st.current, b);
      assert SameView(st, s1, b);
    }
    SetNodeTold(s1, b, node);
    var r := SetNode(s1, b, node);
    forall x: nat | x < |st.blocks| && x != b && x != st.current
      ensures SameView(st, r, x)
    {
      assert SameView(st, s1, x) by {
        if skip { SameViewAlways(st, x); }
      }
      assert SameView(s1, r, x);
    }
  }

  lemma SameViewAlways(st: State, x: nat)
    requires x < |st.blocks|
    ensures SameView(st, st, x)
  {
  }

  lemma ElseBranchTold(st: State, n: nat, impl: Expr, alt: Else)
    requires Wf(st) && st.current == n && n + 4 <= |st.blocks|
    requires Untouched(st, n + 2) && Untouched(st, n + 3)
    ensures var r := ElseBranch(st, n, impl, alt);
      && Told(r) == Told(st) + (if alt.ElseClause? then Only(ConstantTrue(impl), alt.id) else {})
      && SameStarts(st, r) && |r.blocks| == |st.blocks| && r.current == n
      && (forall x: nat :: x < n + 2 || x == n + 3 ==>
            (HasWayIn(r, x) <==> HasWayIn(st, x) || (x == n + 3 && alt.NoElse?)))
      && r.blocks[n + 2].after == [] && SameView(st, r, n + 1) && Quiet(r, n + 3) && r.blocks[n + 3].after == []
      && !HasWayIn(st, n + 3)
  {
    hide HasWayIn, IsStart, Told, AddEdge, SetNode, Quiet, Wf, EdgeUnless;
    if alt.NoElse? {
      AddEdgeTold(st, n, n + 3);
      var r := ElseBranch(st, n, impl, alt);
      assert SameView(st, r, n + 1) && SameView(st, r, n + 2) && SameView(st, r, n + 3);
    } else {
      EdgeUnlessTold(st, ConstantTrue(impl), n + 2, alt.id);
      assert SameView(st, ElseBranch(st, n, impl, alt), n + 3);
    }
  }

  lemma StillUntouched(st: State, r: State, b: nat)
    requires Untouched(st, b) && SameView(st, r, b) && SameStarts(st, r) && (HasWayIn(r, b) <==> HasWayIn(st, b))
    ensures Untouched(r, b)
  {
  }

  lemma BranchesTold(st: State, n: nat, impl: Expr, consId: NodeId, alt: Else)
    requires Wf(st) && st.current == n && n + 4 <= |st.blocks|
    requires Untouched(st, n + 1) && Untouched(st, n + 2) && Untouched(st, n + 3)
    ensures var r := EnterBranches(st, n, impl, consId, alt);
      && Told(r) == Told(st) + Only(ConstantFalse(impl), consId)
                    + (if alt.ElseClause? then Only(ConstantTrue(impl), alt.id) else {})
      && SameStarts(st, r) && |r.blocks| >= |st.blocks| && SameWaysBelow(st, r, n)
      && r.current == n + 1 && !Lost(r) && (HasWayIn(r, n + 3) <==> alt.NoElse?)
      && r.blocks[n + 2].after == [] && Quiet(r, n + 3) && r.blocks[n + 3].after == []
  {
    hide HasWayIn, IsStart, Told, AddInstruction, ElseBranch, SetNode, SetCurrent, Quiet, Wf, EdgeUnless,
        Lost, Untouched;
    EdgeUnlessTold(st, ConstantFalse(impl), n + 1, consId);
    var s1 := SetNode(EdgeUnless(st, ConstantFalse(impl), n + 1), n + 1, consId);
    StillUntouched(st, s1, n + 2);
    StillUntouched(st, s1, n + 3);
    ElseBranchTold(s1, n, impl, alt);
    var s2 := ElseBranch(s1, n, impl, alt);
    StartBlockTold(s2, n + 1, consId);
    var r := AddInstruction(SetCurrent(s2, n + 1), Branch, consId);
    assert SameView(s2, r, n + 2) && SameView(s2, r, n + 3);
  }

  /** The first instruction of a block that has its node. */
  lemma StartBlockTold(st: State, b: nat, id: NodeId)
    requires Wf(st) && b < |st.blocks| && st.blocks[b].after == [] && !Quiet(st, b)
    ensures var r := AddInstruction(SetCurrent(st, b), Branch, id);
      && Told(r) == Told(st) && SameWays(st, r) && SameStarts(st, r) && SameViews(st, r, b)
      && |r.blocks| >= |st.blocks| && r.current == b && !Lost(r)
  {
    hide HasWayIn, IsStart, Told, AddInstruction, SetCurrent, Quiet, Wf, Lost;
    SetCurrentTold(st, b);
    var s3 := SetCurrent(st, b);
    assert SameView(st, s3, b);
    OpenNotLost(s3);
    AddInstructionTold(s3, Branch, id);
    var r := AddInstruction(s3, Branch, id);
    forall x: nat | x < |st.blocks| && x != b
      ensures SameView(st, r, x)
    {
      assert SameView(st, s3, x) && SameView(s3, r, x);
    }
  }

  /** The next instruction goes into the current block, which is not quiet. */
  lemma OpenNotLost(st: State)
    requires Wf(st) && st.blocks[st.current].after == [] && !Quiet(st, st.current)
    ensures !Lost(st)
    ensures forall kind, id :: AddInstruction(st, kind, id).current == st.current
  {
  }
}
