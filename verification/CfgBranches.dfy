/** Which branches a graph enters, in terms of the literals in their conditions. */
module CfgBranches {
  import opened Options
  import opened CfgSyntax
  import opened CfgGraph
  import opened CfgGrowth
  import opened CfgTold
  import opened CfgHonest
  import opened CfgReport

  /** The builder meets statement `t` in `s`: it does not look into else bodies. */
  predicate Meets(s: Stmt, t: Stmt) {
    s == t ||
    match s
    case Block(_, _, children) => MeetsAll(children, t)
    case If(_, _, cons, _) => Meets(cons, t)
    case While(_, _, body) => Meets(body, t)
    case ForIn(_, _, body) => Meets(body, t)
    case Function(_, _, body) => Meets(body, t)
    case _ => false
  }

  predicate MeetsAll(ss: Stmts, t: Stmt) {
    match ss
    case Nil => false
    case Cons(s, rest) => Meets(s, t) || MeetsAll(rest, t)
  }

  /** A branch of `t`: the node it is recorded with, and the value of the condition that
      leads past it. */
  datatype Arm = Arm(node: NodeId, skippedBy: bool)

  predicate HasBranch(t: Stmt, b: Arm) {
    match t
    case If(_, _, cons, alt) => b == Arm(cons.id, false) || (alt.ElseClause? && b == Arm(alt.id, true))
    case While(_, _, body) => b == Arm(body.id, false)
    case _ => false
  }

  lemma PrunedExactly(cond: Expr, value: bool)
    ensures Pruned(cond, value) <==> Literally(cond, value)
  {
    ConstantsExactly(if cond.Paren? then cond.inner else cond);
  }

  // ----- branches that are reported -----

  lemma {:induction false} MetInIds(s: Stmt, t: Stmt, b: Arm)
    requires Meets(s, t) && HasBranch(t, b)
    ensures b.node in Ids(s) && (UniqueIds(s) ==> b.node != s.id)
  {
    if s == t {
      BranchInIds(t, b);
    } else {
      match s
      case Block(_, _, children) => MetInIdsAll(children, t, b);
      case If(_, _, cons, _) => MetInIds(cons, t, b);
      case While(_, _, body) => MetInIds(body, t, b);
      case ForIn(_, _, body) => MetInIds(body, t, b);
      case Function(_, _, body) => MetInIds(body, t, b);
    }
  }

  lemma BranchInIds(t: Stmt, b: Arm)
    requires HasBranch(t, b)
    ensures b.node in Ids(t) && (UniqueIds(t) ==> b.node != t.id)
  {
    HeadInIds(if t.If? then t.cons else t.body);
  }

  lemma {:induction false} MetInIdsAll(ss: Stmts, t: Stmt, b: Arm)
    requires MeetsAll(ss, t) && HasBranch(t, b)
    ensures b.node in IdsAll(ss)
  {
    match ss
    case Cons(s, rest) => if Meets(s, t) { MetInIds(s, t, b); } else { MetInIdsAll(rest, t, b); }
  }

  /** A statement that can be reached is not reported by itself. */
  lemma OwnNotReported(s: Stmt)
    requires UniqueIds(s)
    ensures s.id !in ReportedBy(s, false)
  {
    match s
    case Block(_, _, children) => ReportedInIdsAll(children, false);
    case If(_, _, cons, _) => HeadInIds(cons); ReportedInIds(cons, false);
    case While(_, _, body) => HeadInIds(body); ReportedInIds(body, false);
    case ForIn(_, _, body) => ReportedInIds(body, false);
    case Function(_, _, body) => ReportedInIds(body, false);
    case _ =>
  }

  lemma {:induction false} BranchReported(s: Stmt, lost: bool, t: Stmt, b: Arm)
    requires Meets(s, t) && HasBranch(t, b)
    ensures Pruned(t.cond, b.skippedBy) ==> b.node in ReportedBy(s, lost)
    ensures UniqueIds(s) && b.node in ReportedBy(s, lost) ==> Pruned(t.cond, b.skippedBy)
  {
    MetInIds(s, t, b);
    if s == t {
      OwnBranchReported(t, lost, b);
    } else {
      match s
      case Block(_, _, children) => BranchReportedAll(children, lost, t, b);
      case If(_, _, cons, alt) =>
        MetInIds(cons, t, b);
        BranchReported(cons, false, t, b);
      case While(_, _, body) =>
        MetInIds(body, t, b);
        BranchReported(body, false, t, b);
      case ForIn(_, _, body) => BranchReported(body, false, t, b);
      case Function(_, _, body) => BranchReported(body, false, t, b);
    }
  }

  lemma OwnBranchReported(t: Stmt, lost: bool, b: Arm)
    requires HasBranch(t, b)
    ensures Pruned(t.cond, b.skippedBy) ==> b.node in ReportedBy(t, lost)
    ensures UniqueIds(t) && b.node in ReportedBy(t, lost) ==> Pruned(t.cond, b.skippedBy)
  {
    var child := if t.If? then t.cons else t.body;
    HeadInIds(child);
    ReportedInIds(child, false);
    if UniqueIds(t) { OwnNotReported(child); }
  }

  lemma {:induction false} BranchReportedAll(ss: Stmts, lost: bool, t: Stmt, b: Arm)
    requires MeetsAll(ss, t) && HasBranch(t, b)
    ensures Pruned(t.cond, b.skippedBy) ==> b.node in ReportedByAll(ss, lost)
    ensures UniqueIdsAll(ss) && b.node in ReportedByAll(ss, lost) ==> Pruned(t.cond, b.skippedBy)
  {
    match ss
    case Cons(s, rest) =>
      ReportedInIds(s, lost);
      ReportedInIdsAll(rest, LostAfter(s, lost));
      if Meets(s, t) {
        MetInIds(s, t, b);
        BranchReported(s, lost, t, b);
      } else {
        MetInIdsAll(rest, t, b);
        BranchReportedAll(rest, LostAfter(s, lost), t, b);
      }
  }

  lemma {:induction false} BranchReportedTop(ss: Stmts, lost: bool, t: Stmt, b: Arm)
    requires MeetsAll(ss, t) && HasBranch(t, b)
    ensures Pruned(t.cond, b.skippedBy) ==> b.node in ReportedTop(ss, lost)
    ensures UniqueIdsAll(ss) && b.node in ReportedTop(ss, lost) ==> Pruned(t.cond, b.skippedBy)
  {
    match ss
    case Cons(s, rest) =>
      ReportedInIds(s, lost);
      ReportedInIdsTop(rest, LostAfterTop(s, lost));
      if Meets(s, t) {
        MetInIds(s, t, b);
        BranchReported(s, lost, t, b);
      } else {
        MetInIdsAll(rest, t, b);
        BranchReportedTop(rest, LostAfterTop(s, lost), t, b);
      }
  }

  /** The consequence or the body of a statement that the builder meets, at any depth, is
      reported if and only if its condition is literally false, and an else clause if and
      only if it is literally true: the literal, or nothing but that literal joined by
      `&&`, in parentheses or not.  Only for the second half no identifier may be used
      twice. */
  lemma BranchReportedExactly(id: NodeId, ss: Stmts, t: Stmt, b: Arm)
    requires WellNestedAll(ss, false) && BuildProgram(id, ss).Ok? && MeetsAll(ss, t) && HasBranch(t, b)
    ensures var g := BuildProgram(id, ss).value;
      && Wf(g) && (Literally(t.cond, b.skippedBy) ==> b.node in Report(g, |g.funs|))
      && (UniqueIdsAll(ss) && b.node in Report(g, |g.funs|) ==> Literally(t.cond, b.skippedBy))
  {
    hide BuildProgram, WellNestedAll, UniqueIdsAll, Report, ReportedTop, Pruned, Literally, MeetsAll;
    ProgramReport(id, ss, b.node);
    BranchReportedTop(ss, false, t, b);
    PrunedExactly(t.cond, b.skippedBy);
  }

  // ----- statements behind a jump -----

  predicate IsJump(s: Stmt) {
    s.Break? || s.Continue? || s.Return?
  }

  /** Statements with an instruction of their own in front of all others. */
  predicate IsRecorded(s: Stmt) {
    s.Simple? || s.If? || s.While? || s.ForIn? || s.Function?
  }

  /** In a list that the builder meets, `b` comes right behind `a`. */
  predicate InARow(s: Stmt, a: Stmt, b: Stmt) {
    match s
    case Block(_, _, children) => InARowAll(children, a, b)
    case If(_, _, cons, _) => InARow(cons, a, b)
    case While(_, _, body) => InARow(body, a, b)
    case ForIn(_, _, body) => InARow(body, a, b)
    case Function(_, _, body) => InARow(body, a, b)
    case _ => false
  }

  predicate InARowAll(ss: Stmts, a: Stmt, b: Stmt) {
    match ss
    case Nil => false
    case Cons(s, rest) => InARow(s, a, b) || (s == a && rest.Cons? && rest.head == b) || InARowAll(rest, a, b)
  }

  lemma {:induction false} BehindJumpReported(s: Stmt, lost: bool, a: Stmt, b: Stmt)
    requires InARow(s, a, b) && IsJump(a) && IsRecorded(b)
    ensures b.id in ReportedBy(s, lost)
  {
    match s
    case Block(_, _, children) => BehindJumpReportedAll(children, lost, a, b);
    case If(_, _, cons, _) => BehindJumpReported(cons, false, a, b);
    case While(_, _, body) => BehindJumpReported(body, false, a, b);
    case ForIn(_, _, body) => BehindJumpReported(body, false, a, b);
    case Function(_, _, body) => BehindJumpReported(body, false, a, b);
  }

  lemma {:induction false} BehindJumpReportedAll(ss: Stmts, lost: bool, a: Stmt, b: Stmt)
    requires InARowAll(ss, a, b) && IsJump(a) && IsRecorded(b)
    ensures b.id in ReportedByAll(ss, lost)
  {
    match ss
    case Cons(s, rest) =>
      if InARow(s, a, b) {
        BehindJumpReported(s, lost, a, b);
      } else if s == a && rest.Cons? && rest.head == b {
        assert b.id in ReportedBy(b, true);
      } else {
        BehindJumpReportedAll(rest, LostAfter(s, lost), a, b);
      }
  }

  lemma {:induction false} BehindJumpReportedTop(ss: Stmts, lost: bool, a: Stmt, b: Stmt)
    requires InARowAll(ss, a, b) && IsJump(a) && IsRecorded(b)
    ensures b.id in ReportedTop(ss, lost)
  {
    match ss
    case Cons(s, rest) =>
      if InARow(s, a, b) {
        BehindJumpReported(s, lost, a, b);
      } else if s == a && rest.Cons? && rest.head == b {
        assert b.id in ReportedBy(b, true);
      } else {
        BehindJumpReportedTop(rest, LostAfterTop(s, lost), a, b);
      }
  }

  /** What stands right behind a jump, at any depth, is reported. */
  lemma BehindJumpIsReported(id: NodeId, ss: Stmts, a: Stmt, b: Stmt)
    requires WellNestedAll(ss, false) && BuildProgram(id, ss).Ok? && InARowAll(ss, a, b) && IsJump(a) && IsRecorded(b)
    ensures var g := BuildProgram(id, ss).value; Wf(g) && b.id in Report(g, |g.funs|)
  {
    hide BuildProgram, WellNestedAll, Report, ReportedTop, InARowAll;
    ProgramReport(id, ss, b.id);
    BehindJumpReportedTop(ss, false, a, b);
  }

  // ----- branches that are entered -----

  /** An edge leads from block `a` with the one node to block `b` with the other. */
  predicate LeadsAt(g: State, a: nat, b: nat, from: NodeId, to: NodeId) {
    && a < |g.blocks| && b < |g.blocks| && b in g.blocks[a].after
    && g.blocks[a].node == Some(from) && g.blocks[b].node == Some(to)
  }

  ghost predicate Leads(g: State, from: NodeId, to: NodeId) {
    exists a, b :: LeadsAt(g, a, b, from, to)
  }

  /** Edges and nodes are only added. */
  ghost predicate Kept(st: State, r: State) {
    && |st.blocks| <= |r.blocks|
    && forall x: nat :: x < |st.blocks| ==> SameBlock(st.blocks[x], r.blocks[x])
  }

  predicate SameBlock(x: Vertex, y: Vertex) {
    y.node == x.node && x.after <= y.after
  }

  lemma LeadsOn(st: State, r: State, a: nat, b: nat, from: NodeId, to: NodeId)
    requires Kept(st, r) && LeadsAt(st, a, b, from, to)
    ensures LeadsAt(r, a, b, from, to)
  {
    assert SameBlock(st.blocks[a], r.blocks[a]) && SameBlock(st.blocks[b], r.blocks[b]);
  }

  /** A build keeps what there was before it. */
  lemma GrewKept(st: State, r: State, m: set<NodeId>)
    requires Grew(|st.blocks|, st.current, m, st, r)
    ensures Kept(st, r)
  {
    hide NodesGrew;
  }

  lemma InstructionKept(st: State, kind: InstructionKind, id: NodeId)
    requires Wf(st)
    ensures var r := AddInstruction(st, kind, id);
      && Kept(st, r) && (st.blocks[st.current].after == [] ==> r.current == st.current)
      && (r.current == st.current || r.current >= |st.blocks|)
      && forall x: nat :: x < |st.blocks| ==> r.blocks[x].after == st.blocks[x].after
  {
  }

  lemma EdgeKept(st: State, a: nat, b: nat)
    requires Wf(st) && a < |st.blocks| && b < |st.blocks|
    ensures var r := AddEdge(st, a, b);
      && Kept(st, r) && b in r.blocks[a].after && r.current == st.current
      && forall x: nat :: x < |st.blocks| && x != a ==> r.blocks[x].after == st.blocks[x].after
  {
  }

  /** The condition block has its node and is current. */
  lemma ConditionNoded(st: State, id: NodeId, n: nat, condId: NodeId)
    requires Wf(st) && n < |st.blocks| && n != st.current && st.blocks[n].after == []
    ensures var r := EnterCondition(st, id, n, condId);
      n < |r.blocks| && r.blocks[n].node == Some(condId) && r.current == n
  {
    hide AddInstruction, AddEdge, Wf;
    InstructionKept(st, Branch, id);
    var s1 := AddInstruction(st, Branch, id);
    InBlocks(s1);
    EdgeKept(s1, s1.current, n);
    var s2 := SetCurrent(SetNode(AddEdge(s1, s1.current, n), n, condId), n);
    InstructionKept(s2, Branch, id);
    assert SameBlock(s2.blocks[n], AddInstruction(s2, Branch, id).blocks[n]);
  }

  /** The edge to an arm, and the arm's node; other arms stay. */
  lemma ArmEntered(st: State, skip: bool, b: nat, from: NodeId, to: NodeId)
    requires Wf(st) && b < |st.blocks| && b != st.current && st.blocks[st.current].node == Some(from)
    ensures var r, a := SetNode(EdgeUnless(st, skip, b), b, to), st.current;
      && (!skip ==> LeadsAt(r, a, b, from, to)) && r.current == a && |r.blocks| == |st.blocks|
      && r.blocks[a].node == Some(from)
      && forall x: nat, y: NodeId :: x != b && LeadsAt(st, a, x, from, y) ==> LeadsAt(r, a, x, from, y)
  {
    hide AddEdge, Wf;
    InBlocks(st);
    EdgeKept(st, st.current, b);
    var s := EdgeUnless(st, skip, b);
    assert !skip ==> SameBlock(st.blocks[st.current], s.blocks[st.current]);
    forall x: nat, y: NodeId | x != b && LeadsAt(st, st.current, x, from, y)
      ensures LeadsAt(SetNode(s, b, to), st.current, x, from, y)
    {
      assert !skip ==> SameBlock(st.blocks[x], s.blocks[x]);
    }
  }

  lemma FreshBlocks(st: State)
    requires Wf(st)
    ensures var n := |st.blocks|; var r := AddBlock(AddBlock(AddBlock(st)));
      |r.blocks| == n + 3 && r.blocks[n].after == [] && r.current == st.current < n
    ensures var n := |st.blocks|; var r := AddBlock(AddBlock(AddBlock(AddBlock(st))));
      |r.blocks| == n + 4 && r.blocks[n].after == [] && r.current == st.current < n
  {
  }

  lemma ElseEntered(st: State, n: nat, impl: Expr, alt: Else, from: NodeId, cons: NodeId)
    requires Wf(st) && n + 4 <= |st.blocks| && st.current == n && st.blocks[n].node == Some(from)
    ensures var r := ElseBranch(st, n, impl, alt);
      && (LeadsAt(st, n, n + 1, from, cons) ==> LeadsAt(r, n, n + 1, from, cons))
      && (alt.ElseClause? && !ConstantTrue(impl) ==> LeadsAt(r, n, n + 2, from, alt.id))
  {
    hide AddEdge, SetNode, EdgeUnless, ConstantTrue, Wf, Kept;
    if alt.NoElse? {
      EdgeKept(st, n, n + 3);
      if LeadsAt(st, n, n + 1, from, cons) { LeadsOn(st, AddEdge(st, n, n + 3), n, n + 1, from, cons); }
    } else {
      ArmEntered(st, ConstantTrue(impl), n + 2, from, alt.id);
    }
  }

  /** The arms of an if statement whose conditions are not constant against them. */
  lemma IfEntered(st: State, s: Stmt, impl: Expr)
    requires Wf(st) && s.If? && ConditionNode(s.cond) == Some(impl)
    ensures var r, n := EnterIf(st, s.id, s.cond, impl, s.cons.id, s.alt), |st.blocks|;
      && (!ConstantFalse(impl) ==> LeadsAt(r, n, n + 1, s.cond.id, s.cons.id))
      && (s.alt.ElseClause? && !ConstantTrue(impl) ==> LeadsAt(r, n, n + 2, s.cond.id, s.alt.id))
  {
    hide AddBlock, EnterCondition, ConstantTrue, ConstantFalse, LeadsAt, ElseBranch, SetNode, EdgeUnless,
        AddInstruction;
    var n := |st.blocks|;
    FreshBlocks(st);
    var s0 := AddBlock(AddBlock(AddBlock(AddBlock(st))));
    ConditionNoded(s0, s.id, n, s.cond.id);
    var s1 := EnterCondition(s0, s.id, n, s.cond.id);
    ArmEntered(s1, ConstantFalse(impl), n + 1, s.cond.id, s.cons.id);
    var s2 := SetNode(EdgeUnless(s1, ConstantFalse(impl), n + 1), n + 1, s.cons.id);
    ElseEntered(s2, n, impl, s.alt, s.cond.id, s.cons.id);
    StartKept(ElseBranch(s2, n, impl, s.alt), n, n + 1, s.cons.id);
  }

  /** Starting an arm keeps the edges from block `a`. */
  lemma StartKept(st: State, a: nat, b: nat, id: NodeId)
    requires Wf(st) && b < |st.blocks|
    ensures var r := AddInstruction(SetCurrent(st, b), Branch, id);
      forall x: nat, from: NodeId, to: NodeId :: LeadsAt(st, a, x, from, to) ==> LeadsAt(r, a, x, from, to)
  {
    hide AddInstruction, LeadsAt;
    var s := SetCurrent(st, b);
    InstructionKept(s, Branch, id);
    forall x: nat, from: NodeId, to: NodeId | LeadsAt(st, a, x, from, to)
      ensures LeadsAt(AddInstruction(s, Branch, id), a, x, from, to)
    {
      assert LeadsAt(s, a, x, from, to) by { SameBlocksLead(st, s, a, x, from, to); }
      LeadsOn(s, AddInstruction(s, Branch, id), a, x, from, to);
    }
  }

  lemma SameBlocksLead(st: State, r: State, a: nat, b: nat, from: NodeId, to: NodeId)
    requires r.blocks == st.blocks
    ensures LeadsAt(r, a, b, from, to) <==> LeadsAt(st, a, b, from, to)
  {
  }

  lemma WhileEntered(st: State, s: Stmt, impl: Expr)
    requires Wf(st) && s.While? && ConditionNode(s.cond) == Some(impl)
    ensures var r, n := EnterWhile(st, s.id, s.cond, impl, s.body.id), |st.blocks|;
      !ConstantFalse(impl) ==> LeadsAt(r, n, n + 1, s.cond.id, s.body.id)
  {
    hide AddBlock, EnterCondition, ConstantTrue, ConstantFalse, LeadsAt, SetNode, EdgeUnless, AddEdge;
    var n := |st.blocks|;
    FreshBlocks(st);
    var s0 := PushLoop(AddBlock(AddBlock(AddBlock(st))), n, n + 2);
    ConditionNoded(s0, s.id, n, s.cond.id);
    var s1 := EnterCondition(s0, s.id, n, s.cond.id);
    EdgeKept(s1, n, n + 2);
    var s2 := if ConstantTrue(impl) then s1 else AddEdge(s1, n, n + 2);
    assert !ConstantTrue(impl) ==> SameBlock(s1.blocks[n], s2.blocks[n]);
    ArmEntered(s2, ConstantFalse(impl), n + 1, s.cond.id, s.body.id);
    var s3 := SetNode(EdgeUnless(s2, ConstantFalse(impl), n + 1), n + 1, s.body.id);
    SameBlocksLead(s3, SetCurrent(s3, n + 1), n, n + 1, s.cond.id, s.body.id);
  }

  // ----- leaving takes nothing away -----

  lemma KeptThen(a: State, b: State, c: State)
    requires Kept(a, b) && Kept(b, c)
    ensures Kept(a, c)
  {
    forall x: nat | x < |a.blocks|
      ensures SameBlock(a.blocks[x], c.blocks[x])
    {
      assert SameBlock(a.blocks[x], b.blocks[x]) && SameBlock(b.blocks[x], c.blocks[x]);
    }
  }

  lemma JoinKept(st: State, b: nat)
    requires Wf(st) && b < |st.blocks|
    ensures Kept(st, JoinTo(st, b))
  {
    hide AddEdge;
    InBlocks(st);
    EdgeKept(st, st.current, b);
  }

  lemma LeaveIfKept(st: State, n: nat, alt: Else)
    requires Wf(st) && n + 4 <= |st.blocks|
    ensures Kept(st, LeaveIf(st, n, alt))
  {
    hide JoinTo, SameBlock, Wf;
    JoinKept(st, n + 3);
    var s1 := SetCurrent(JoinTo(st, n + 3), n + 2);
    JoinKept(s1, n + 3);
    KeptThen(st, s1, JoinTo(s1, n + 3));
  }

  lemma LeaveLoopKept(st: State, cont: nat, after: nat)
    requires Wf(st) && cont < |st.blocks| && after < |st.blocks|
    ensures Kept(st, LeaveLoop(st, cont, after))
  {
    hide JoinTo, SameBlock, Wf;
    JoinKept(st, cont);
  }

  lemma LeaveFunctionKept(st: State, back: nat)
    requires Wf(st) && |st.stack| >= 2 && back < |st.blocks|
    ensures Kept(st, LeaveFunction(st, back))
  {
    hide AddEdge, SameBlock;
    EdgeKept(st, st.current, st.funs[CurrentFun(st)].end);
  }

  lemma LeaveKept(s: Stmt, st: State, s1: State)
    requires Wf(st) && IsNested(s) && Enter(s, st).Ok? && Grows(Enter(s, st).value, s1)
    ensures Kept(s1, Leave(s, st, s1))
  {
    hide EnterIf, EnterWhile, EnterForIn, ForInBase, AddInstruction, LeaveIf, LeaveLoop, LeaveFunction, Kept;
    match s
    case If(_, _, _, alt) => LeaveIfKept(s1, |st.blocks|, alt);
    case While(_, _, _) => LeaveLoopKept(s1, |st.blocks|, |st.blocks| + 2);
    case ForIn(_, _, _) => LeaveLoopKept(s1, ForInBase(st) + 1, ForInBase(st) + 3);
    case Function(id, _, _) => LeaveFunctionKept(s1, AddInstruction(st, Assign, id).current);
  }

  // ----- every arm -----

  lemma ArmBuilt(t: Stmt, st: State, b: Arm)
    requires Wf(st) && Build(t, st).Ok? && HasBranch(t, b) && !Pruned(t.cond, b.skippedBy)
    ensures Leads(Build(t, st).value, t.cond.id, b.node)
  {
    hide EnterIf, EnterWhile, Leave, LeadsAt, Wf, ConstantTrue, ConstantFalse, Kept;
    BuildNested(t, st);
    var n, impl := |st.blocks|, ConditionNode(t.cond).value;
    var inner := Enter(t, st).value;
    if t.If? { IfEntered(st, t, impl); } else { WhileEntered(st, t, impl); }
    var s1 := Build(Child(t), inner).value;
    BuildGrew(Child(t), inner);
    GrewKept(inner, s1, Built(Child(t)));
    LeaveKept(t, st, s1);
    var m := if LeadsAt(inner, n, n + 1, t.cond.id, b.node) then n + 1 else n + 2;
    LeadsOn(inner, s1, n, m, t.cond.id, b.node);
    LeadsOn(s1, Leave(t, st, s1), n, m, t.cond.id, b.node);
  }

  lemma StillLeads(st: State, r: State, from: NodeId, to: NodeId)
    requires Kept(st, r) && Leads(st, from, to)
    ensures Leads(r, from, to)
  {
    var a, b :| LeadsAt(st, a, b, from, to);
    LeadsOn(st, r, a, b, from, to);
  }

  lemma {:induction false} BuildLeads(s: Stmt, st: State, t: Stmt, b: Arm)
    requires Wf(st) && Build(s, st).Ok? && Meets(s, t) && HasBranch(t, b) && !Pruned(t.cond, b.skippedBy)
    ensures Leads(Build(s, st).value, t.cond.id, b.node)
    decreases s
  {
    hide Enter, Leave, BuildLeaf, Wf, Leads, Kept, Pruned;
    if s == t {
      ArmBuilt(t, st, b);
    } else if s.Block? {
      BuildAllLeads(s.children, st, t, b);
    } else {
      BuildNested(s, st);
      var inner := Enter(s, st).value;
      var s1 := Build(Child(s), inner).value;
      BuildLeads(Child(s), inner, t, b);
      LeaveKept(s, st, s1);
      StillLeads(s1, Leave(s, st, s1), t.cond.id, b.node);
    }
  }

  lemma {:induction false} BuildAllLeads(ss: Stmts, st: State, t: Stmt, b: Arm)
    requires Wf(st) && BuildAll(ss, st).Ok? && MeetsAll(ss, t) && HasBranch(t, b) && !Pruned(t.cond, b.skippedBy)
    ensures Leads(BuildAll(ss, st).value, t.cond.id, b.node)
    decreases ss
  {
    hide Build, Wf, Leads, Kept, Pruned, Meets;
    match ss
    case Cons(s, rest) =>
      var s1 := Build(s, st).value;
      if Meets(s, t) {
        BuildLeads(s, st, t, b);
        BuildAllGrew(rest, s1);
        GrewKept(s1, BuildAll(rest, s1).value, BuiltAll(rest));
        StillLeads(s1, BuildAll(rest, s1).value, t.cond.id, b.node);
      } else {
        BuildAllLeads(rest, s1, t, b);
      }
  }

  lemma {:induction false} ExpandedMeets(ss: Stmts, t: Stmt)
    requires MeetsAll(ss, t)
    ensures MeetsAll(Expanded(ss), t)
  {
    match ss
    case Cons(s, rest) => if !Meets(s, t) { ExpandedMeets(rest, t); }
  }

  /** Every other arm is entered: an edge leads from the condition's block to the arm's. */
  lemma BranchEntered(id: NodeId, ss: Stmts, t: Stmt, b: Arm)
    requires BuildProgram(id, ss).Ok? && MeetsAll(ss, t) && HasBranch(t, b) && !Literally(t.cond, b.skippedBy)
    ensures Leads(BuildProgram(id, ss).value, t.cond.id, b.node)
  {
    hide BuildAll, Wf, Leads, Kept, Pruned, Meets, AddEdge, Expanded, Literally, BeginFunction;
    PrunedExactly(t.cond, b.skippedBy);
    ExpandedMeets(ss, t);
    var st := BeginFunction(EMPTY, id);
    var s1 := BuildAll(Expanded(ss), st).value;
    BuildAllLeads(Expanded(ss), st, t, b);
    ProgramClosed(s1);
    StillLeads(s1, BuildProgram(id, ss).value, t.cond.id, b.node);
  }

  lemma ProgramClosed(s1: State)
    requires Wf(s1)
    ensures |s1.funs| > 0 && s1.current < |s1.blocks| && s1.funs[0].end < |s1.blocks|
    ensures Kept(s1, AddEdge(s1, s1.current, s1.funs[0].end))
  {
    FirstFits(s1);
    EdgeKept(s1, s1.current, s1.funs[0].end);
  }
}
