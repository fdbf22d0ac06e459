/** Which instructions a graph holds: those of its statements, each as often as the builder
    records it, whatever blocks they are in. */
module CfgCode {
  import opened Options
  import opened CfgSyntax
  import opened CfgGraph

  // ----- the instructions of a graph -----

  function Code(bs: seq<Vertex>): multiset<Instruction>
    decreases |bs|
  {
    if bs == [] then multiset{} else Code(bs[..|bs| - 1]) + multiset(bs[|bs| - 1].code)
  }

  lemma {:induction false} SameCode(a: seq<Vertex>, b: seq<Vertex>)
    requires |a| == |b| && forall i :: 0 <= i < |a| ==> a[i].code == b[i].code
    ensures Code(a) == Code(b)
    decreases |a|
  {
    if a != [] {
      SameCode(a[..|a| - 1], b[..|b| - 1]);
    }
  }

  lemma {:induction false} CodeAdded(a: seq<Vertex>, b: seq<Vertex>, k: nat, x: Instruction)
    requires |a| == |b| && k < |a| && b[k].code == a[k].code + [x]
    requires forall i :: 0 <= i < |a| && i != k ==> a[i].code == b[i].code
    ensures Code(b) == Code(a) + multiset{x}
    decreases |a|
  {
    if k == |a| - 1 {
      SameCode(a[..k], b[..k]);
    } else {
      CodeAdded(a[..|a| - 1], b[..|b| - 1], k, x);
    }
  }

  /** From `st` to `r` these instructions were recorded. */
  ghost predicate Adds(st: State, r: State, code: multiset<Instruction>) {
    Code(r.blocks) == Code(st.blocks) + code
  }

  /** The instructions of a statement.  A condition block records its statement once more,
      and the consequence begins with a branch to itself; an else clause records none. */
  function CodeOf(s: Stmt): multiset<Instruction> {
    match s
    case Plain(_) => multiset{}
    case Simple(id, kind) => multiset{Instruction(kind, id)}
    case Block(_, _, children) => CodeOfAll(children)
    case If(id, _, cons, _) =>
      multiset{Instruction(Branch, id), Instruction(Branch, id), Instruction(Branch, cons.id)} + CodeOf(cons)
    case While(id, _, body) => multiset{Instruction(Branch, id), Instruction(Branch, id)} + CodeOf(body)
    case ForIn(id, right, body) =>
      multiset{Instruction(Branch, id), Instruction(Assign, right), Instruction(Assign, right),
               Instruction(Branch, right)} + CodeOf(body)
    case Break(id) => multiset{Instruction(Branch, id)}
    case Continue(id) => multiset{Instruction(Branch, id)}
    case Return(id) => multiset{Instruction(Jump, id)}
    case Function(id, _, body) => multiset{Instruction(Assign, id)} + CodeOf(body)
  }

  function CodeOfAll(ss: Stmts): multiset<Instruction> {
    match ss
    case Nil => multiset{}
    case Cons(s, rest) => CodeOf(s) + CodeOfAll(rest)
  }

  // ----- what each step records -----

  lemma AddBlockRecords(st: State)
    requires Wf(st)
    ensures Adds(st, AddBlock(st), multiset{})
  {
    assert AddBlock(st).blocks[..|st.blocks|] == st.blocks;
  }

  lemma AddEdgeRecords(st: State, a: nat, b: nat)
    requires Wf(st) && a < |st.blocks| && b < |st.blocks|
    ensures Adds(st, AddEdge(st, a, b), multiset{})
  {
    SameCode(st.blocks, AddEdge(st, a, b).blocks);
  }

  lemma SetNodeRecords(st: State, b: nat, node: NodeId)
    requires Wf(st) && b < |st.blocks|
    ensures Adds(st, SetNode(st, b, node), multiset{})
  {
    SameCode(st.blocks, SetNode(st, b, node).blocks);
  }

  lemma AddInstructionRecords(st: State, kind: InstructionKind, id: NodeId)
    requires Wf(st)
    ensures Adds(st, AddInstruction(st, kind, id), multiset{Instruction(kind, id)})
  {
    AddBlockRecords(st);
    var o := OpenBlock(st);
    CodeAdded(o.blocks, AppendCode(o, kind, id).blocks, o.current, Instruction(kind, id));
  }

  lemma JoinRecords(st: State, b: nat)
    requires Wf(st) && b < |st.blocks|
    ensures Adds(st, JoinTo(st, b), multiset{})
  {
    hide AddEdge;
    InBlocks(st);
    AddEdgeRecords(st, st.current, b);
  }

  lemma BlocksRecord(st: State)
    requires Wf(st)
    ensures Adds(st, AddBlock(AddBlock(AddBlock(st))), multiset{})
    ensures Adds(st, AddBlock(AddBlock(AddBlock(AddBlock(st)))), multiset{})
  {
    hide AddBlock;
    AddBlockRecords(st);
    AddBlockRecords(AddBlock(st));
    AddBlockRecords(AddBlock(AddBlock(st)));
    AddBlockRecords(AddBlock(AddBlock(AddBlock(st))));
  }

  lemma ConditionRecords(st: State, id: NodeId, n: nat, condId: NodeId)
    requires Wf(st) && n < |st.blocks|
    ensures Adds(st, EnterCondition(st, id, n, condId), multiset{Instruction(Branch, id), Instruction(Branch, id)})
  {
    hide AddInstruction, AddEdge, SetNode, Code;
    AddInstructionRecords(st, Branch, id);
    var s1 := AddInstruction(st, Branch, id);
    InBlocks(s1);
    AddEdgeRecords(s1, s1.current, n);
    SetNodeRecords(AddEdge(s1, s1.current, n), n, condId);
    AddInstructionRecords(SetCurrent(SetNode(AddEdge(s1, s1.current, n), n, condId), n), Branch, id);
  }

  lemma EdgeUnlessRecords(st: State, skip: bool, b: nat)
    requires Wf(st) && b < |st.blocks|
    ensures Adds(st, EdgeUnless(st, skip, b), multiset{})
  {
    hide AddEdge;
    InBlocks(st);
    AddEdgeRecords(st, st.current, b);
  }

  lemma IfRecords(st: State, s: Stmt, impl: Expr)
    requires Wf(st) && s.If?
    ensures Adds(st, EnterIf(st, s.id, s.cond, impl, s.cons.id, s.alt),
              multiset{Instruction(Branch, s.id), Instruction(Branch, s.id), Instruction(Branch, s.cons.id)})
  {
    hide AddBlock, EnterCondition, SetNode, EdgeUnless, AddInstruction, AddEdge, Code;
    var n := |st.blocks|;
    BlocksRecord(st);
    var s0 := AddBlock(AddBlock(AddBlock(AddBlock(st))));
    ConditionRecords(s0, s.id, n, s.cond.id);
    var s1 := EnterCondition(s0, s.id, n, s.cond.id);
    EdgeUnlessRecords(s1, ConstantFalse(impl), n + 1);
    SetNodeRecords(EdgeUnless(s1, ConstantFalse(impl), n + 1), n + 1, s.cons.id);
    var s2 := SetNode(EdgeUnless(s1, ConstantFalse(impl), n + 1), n + 1, s.cons.id);
    ElseRecords(s2, n, impl, s.alt);
    AddInstructionRecords(SetCurrent(ElseBranch(s2, n, impl, s.alt), n + 1), Branch, s.cons.id);
  }

  lemma ElseRecords(st: State, n: nat, impl: Expr, alt: Else)
    requires Wf(st) && n + 4 <= |st.blocks|
    ensures Adds(st, ElseBranch(st, n, impl, alt), multiset{})
  {
    hide AddEdge, SetNode, EdgeUnless, Code;
    InBlocks(st);
    if alt.NoElse? {
      AddEdgeRecords(st, st.current, n + 3);
    } else {
      EdgeUnlessRecords(st, ConstantTrue(impl), n + 2);
      SetNodeRecords(EdgeUnless(st, ConstantTrue(impl), n + 2), n + 2, alt.id);
    }
  }

  lemma WhileRecords(st: State, s: Stmt, impl: Expr)
    requires Wf(st) && s.While?
    ensures Adds(st, EnterWhile(st, s.id, s.cond, impl, s.body.id),
              multiset{Instruction(Branch, s.id), Instruction(Branch, s.id)})
  {
    hide AddBlock, EnterCondition, SetNode, EdgeUnless, AddEdge, Code;
    var n := |st.blocks|;
    BlocksRecord(st);
    var s0 := PushLoop(AddBlock(AddBlock(AddBlock(st))), n, n + 2);
    ConditionRecords(s0, s.id, n, s.cond.id);
    var s1 := EnterCondition(s0, s.id, n, s.cond.id);
    AddEdgeRecords(s1, n, n + 2);
    var s2 := if ConstantTrue(impl) then s1 else AddEdge(s1, n, n + 2);
    EdgeUnlessRecords(s2, ConstantFalse(impl), n + 1);
    SetNodeRecords(EdgeUnless(s2, ConstantFalse(impl), n + 1), n + 1, s.body.id);
  }

  lemma ForInRecords(st: State, s: Stmt)
    requires Wf(st) && s.ForIn?
    ensures Adds(st, EnterForIn(st, s.id, s.right, s.body.id),
              multiset{Instruction(Branch, s.id), Instruction(Assign, s.right), Instruction(Assign, s.right),
                       Instruction(Branch, s.right)})
  {
    hide AddBlock, AddInstruction, AddEdge, SetNode, Code, ForInBase, ForInInit;
    var n := ForInBase(st);
    ForInInitRecords(st, s.id);
    var s2 := ForInInit(st, s.id);
    AddInstructionRecords(s2, Assign, s.right);
    AddEdgeRecords(AddInstruction(s2, Assign, s.right), n, n + 1);
    var s3 := ForInIterator(s2, n, s.right);
    ForInNextRecords(s3, n, s.right, s.body.id);
  }

  lemma ForInInitRecords(st: State, id: NodeId)
    requires Wf(st)
    ensures Adds(st, ForInInit(st, id), multiset{Instruction(Branch, id)})
  {
    hide AddBlock, AddInstruction, AddEdge, Code, ForInBase;
    var n := ForInBase(st);
    AddInstructionRecords(st, Branch, id);
    var s0 := AddInstruction(st, Branch, id);
    ForInBaseIs(st, id);
    BlocksRecord(s0);
    var s1 := PushLoop(AddBlock(AddBlock(AddBlock(AddBlock(s0)))), n + 1, n + 3);
    InBlocks(s1);
    AddEdgeRecords(s1, s1.current, n);
  }

  lemma ForInNextRecords(st: State, n: nat, right: NodeId, bodyId: NodeId)
    requires Wf(st) && n + 4 <= |st.blocks|
    ensures Adds(st, ForInNext(st, n, right, bodyId),
              multiset{Instruction(Assign, right), Instruction(Branch, right)})
  {
    hide AddInstruction, AddEdge, SetNode, Code;
    AddInstructionRecords(st, Assign, right);
    AddInstructionRecords(AddInstruction(st, Assign, right), Branch, right);
    var s4 := AddInstruction(AddInstruction(st, Assign, right), Branch, right);
    InBlocks(s4);
    AddEdgeRecords(s4, n + 1, n + 2);
    var s5 := AddEdge(s4, n + 1, n + 2);
    AddEdgeRecords(s5, s4.current, n + 3);
    SetNodeRecords(AddEdge(s5, s4.current, n + 3), n + 2, bodyId);
  }

  lemma JumpRecords(st: State, id: NodeId, target: nat)
    requires Wf(st) && target < |st.blocks|
    ensures Adds(st, BuildJump(st, id, target), multiset{Instruction(Branch, id)})
  {
    hide AddBlock, AddInstruction, AddEdge, Code;
    var n := |st.blocks|;
    AddBlockRecords(st);
    var s0 := SetCurrent(AddBlock(st), n);
    AddInstructionRecords(s0, Branch, id);
    InBlocks(st);
    AddEdgeRecords(AddInstruction(s0, Branch, id), st.current, n);
    AddEdgeRecords(AddEdge(AddInstruction(s0, Branch, id), st.current, n), n, target);
  }

  lemma ReturnRecords(st: State, id: NodeId)
    requires Wf(st)
    ensures Adds(st, BuildReturn(st, id), multiset{Instruction(Jump, id)})
  {
    hide AddBlock, AddInstruction, AddEdge, Code;
    var n := |st.blocks|;
    AddBlockRecords(st);
    AddBlockRecords(AddBlock(st));
    var s0 := SetCurrent(AddBlock(AddBlock(st)), n);
    AddInstructionRecords(s0, Jump, id);
    InBlocks(st);
    var s2 := AddEdge(AddInstruction(s0, Jump, id), st.current, n);
    AddEdgeRecords(AddInstruction(s0, Jump, id), st.current, n);
    InBlocks(s2);
    AddEdgeRecords(s2, n, s2.funs[CurrentFun(s2)].end);
  }

  lemma {:induction false} CodeMore(a: seq<Vertex>, b: seq<Vertex>)
    requires forall i :: 0 <= i < |b| ==> b[i].code == []
    ensures Code(a + b) == Code(a)
    decreases |b|
  {
    if b == [] {
      assert a + b == a;
    } else {
      assert (a + b)[..|a + b| - 1] == a + b[..|b| - 1];
      CodeMore(a, b[..|b| - 1]);
    }
  }

  lemma BeginRecords(st: State, id: NodeId)
    requires Wf(st) || st == EMPTY
    ensures Adds(st, BeginFunction(st, id), multiset{})
  {
    var e := Vertex([], [], [], None, |st.funs|);
    CodeMore(st.blocks, [e, e]);
  }

  // ----- entering and leaving -----

  /** What a statement records before its child. */
  function OwnCode(s: Stmt): multiset<Instruction>
    requires IsNested(s)
  {
    match s
    case If(id, _, cons, _) =>
      multiset{Instruction(Branch, id), Instruction(Branch, id), Instruction(Branch, cons.id)}
    case While(id, _, _) => multiset{Instruction(Branch, id), Instruction(Branch, id)}
    case ForIn(id, right, _) =>
      multiset{Instruction(Branch, id), Instruction(Assign, right), Instruction(Assign, right),
               Instruction(Branch, right)}
    case Function(id, _, _) => multiset{Instruction(Assign, id)}
  }

  lemma EnterRecords(s: Stmt, st: State)
    requires Wf(st) && IsNested(s) && Enter(s, st).Ok?
    ensures Adds(st, Enter(s, st).value, OwnCode(s))
  {
    hide EnterIf, EnterWhile, EnterForIn, AddInstruction, BeginFunction, Code;
    match s
    case If(_, cond, _, _) => IfRecords(st, s, ConditionNode(cond).value);
    case While(_, cond, _) => WhileRecords(st, s, ConditionNode(cond).value);
    case ForIn(_, _, _) => ForInRecords(st, s);
    case Function(id, _, _) =>
      AddInstructionRecords(st, Assign, id);
      BeginRecords(AddInstruction(st, Assign, id), id);
  }

  lemma LeaveRecords(s: Stmt, st: State, s1: State)
    requires Wf(st) && IsNested(s) && Enter(s, st).Ok? && Grows(Enter(s, st).value, s1)
    ensures Adds(s1, Leave(s, st, s1), multiset{})
  {
    hide EnterIf, EnterWhile, EnterForIn, ForInBase, AddInstruction, JoinTo, AddEdge, Code;
    match s
    case If(_, _, _, _) =>
      var n := |st.blocks|;
      JoinRecords(s1, n + 3);
      JoinRecords(SetCurrent(JoinTo(s1, n + 3), n + 2), n + 3);
    case While(_, _, _) => JoinRecords(s1, |st.blocks|);
    case ForIn(_, _, _) => JoinRecords(s1, ForInBase(st) + 1);
    case Function(_, _, _) =>
      InBlocks(s1);
      InBlocks(s1);
      AddEdgeRecords(s1, s1.current, s1.funs[CurrentFun(s1)].end);
  }

  // ----- any statement -----

  lemma LeafRecords(s: Stmt, st: State)
    requires Wf(st) && !IsNested(s) && !s.Block? && Build(s, st).Ok?
    ensures Adds(st, Build(s, st).value, CodeOf(s))
  {
    hide AddInstruction, BuildJump, BuildReturn, Code;
    match s
    case Plain(_) =>
    case Simple(id, kind) => AddInstructionRecords(st, kind, id);
    case Break(id) => JumpRecords(st, id, Last(st.brk));
    case Continue(id) => JumpRecords(st, id, Last(st.cont));
    case Return(id) => ReturnRecords(st, id);
  }

  /** Building a statement records exactly its instructions. */
  lemma {:induction false} BuildRecords(s: Stmt, st: State)
    requires Wf(st) && Build(s, st).Ok?
    ensures Adds(st, Build(s, st).value, CodeOf(s))
    decreases s
  {
    hide Wf, Enter, Leave, BuildLeaf, Code;
    if s.Block? {
      BuildAllRecords(s.children, st);
    } else if IsNested(s) {
      var inner := Enter(s, st).value;
      var s1 := Build(Child(s), inner).value;
      EnterRecords(s, st);
      BuildRecords(Child(s), inner);
      LeaveRecords(s, st, s1);
    } else {
      LeafRecords(s, st);
    }
  }

  lemma {:induction false} BuildAllRecords(ss: Stmts, st: State)
    requires Wf(st) && BuildAll(ss, st).Ok?
    ensures Adds(st, BuildAll(ss, st).value, CodeOfAll(ss))
    decreases ss
  {
    hide Wf, Build, Code;
    match ss
    case Nil =>
    case Cons(s, rest) =>
      BuildRecords(s, st);
      BuildAllRecords(rest, Build(s, st).value);
  }

  /** The instructions of a program's graph are those of its statements, those in its
      declarations twice. */
  lemma ProgramCode(id: NodeId, ss: Stmts)
    requires BuildProgram(id, ss).Ok?
    ensures Code(BuildProgram(id, ss).value.blocks) == CodeOfAll(Expanded(ss))
  {
    hide BuildAll, BeginFunction, AddEdge, CodeOfAll;
    var st := BeginFunction(EMPTY, id);
    BeginRecords(EMPTY, id);
    BuildAllRecords(Expanded(ss), st);
    var s1 := BuildAll(Expanded(ss), st).value;
    FirstFits(s1);
    AddEdgeRecords(s1, s1.current, s1.funs[0].end);
  }

}
