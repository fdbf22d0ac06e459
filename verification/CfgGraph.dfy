/** The block graph under construction, as a value, and the builder as a function
    on it.  Blocks and functions are numbered in the order they are created.
    The heap builder in CfgBuilder is proved to do exactly what Build says. */
module CfgGraph {
  import opened Options
  import opened CfgSyntax

  datatype Instruction = Instruction(kind: InstructionKind, node: NodeId)

  /** `fn` is the function whose `blocks` list holds the block. */
  datatype Vertex = Vertex(
    after: seq<nat>, before: seq<nat>, code: seq<Instruction>, node: Option<NodeId>, fn: nat)

  datatype Fun = Fun(start: nat, end: nat, node: NodeId, blocks: seq<nat>)

  datatype State = State(
    blocks: seq<Vertex>, funs: seq<Fun>,
    brk: seq<nat>, cont: seq<nat>, stack: seq<nat>, current: nat)

  datatype Error = BreakStackEmpty | ContinueStackEmpty | NilDereference

  datatype Result<+T> = Ok(value: T) | Err(error: Error)

  const EMPTY := State([], [], [], [], [], 0)

  function Last<T>(s: seq<T>): T
    requires s != []
  {
    s[|s| - 1]
  }

  // ----- well-formedness -----

  predicate InRange(s: seq<nat>, n: nat) {
    forall i :: 0 <= i < |s| ==> s[i] < n
  }

  predicate FunInRange(f: Fun, n: nat) {
    f.start < n && f.end < n && InRange(f.blocks, n)
  }

  predicate BlockInRange(b: Vertex, n: nat) {
    InRange(b.after, n) && InRange(b.before, n)
  }

  /** All indices are in range and a function is being built. */
  predicate Wf(st: State) {
    && st.current < |st.blocks|
    && InRange(st.brk, |st.blocks|) && InRange(st.cont, |st.blocks|)
    && st.stack != [] && InRange(st.stack, |st.funs|)
    && (forall i :: 0 <= i < |st.funs| ==> FunInRange(st.funs[i], |st.blocks|))
    && (forall i :: 0 <= i < |st.blocks| ==> BlockInRange(st.blocks[i], |st.blocks|))
  }

  function CurrentFun(st: State): nat
    requires Wf(st)
    ensures CurrentFun(st) < |st.funs|
  {
    Last(st.stack)
  }

  function EndOf(st: State): nat
    requires Wf(st)
    ensures EndOf(st) < |st.blocks|
  {
    st.funs[CurrentFun(st)].end
  }

  // ----- the builder's primitive steps -----

  function AddBlock(st: State): (r: State)
    requires Wf(st)
    ensures Wf(r)
    ensures r.stack == st.stack && r.brk == st.brk && r.cont == st.cont && |r.funs| == |st.funs|
    ensures |r.blocks| == |st.blocks| + 1 && r.current == st.current
  {
    var f := CurrentFun(st);
    var n := |st.blocks|;
    st.(blocks := st.blocks + [Vertex([], [], [], None, f)],
        funs := st.funs[f := st.funs[f].(blocks := st.funs[f].blocks + [n])])
  }

  function AddEdge(st: State, a: nat, b: nat): (r: State)
    requires Wf(st) && a < |st.blocks| && b < |st.blocks|
    ensures Wf(r) && |r.blocks| == |st.blocks|
    ensures r.stack == st.stack && r.brk == st.brk && r.cont == st.cont && |r.funs| == |st.funs|
  {
    var blocks := st.blocks[a := st.blocks[a].(after := st.blocks[a].after + [b])];
    st.(blocks := blocks[b := blocks[b].(before := blocks[b].before + [a])])
  }

  function SetNode(st: State, b: nat, node: NodeId): (r: State)
    requires Wf(st) && b < |st.blocks|
    ensures Wf(r) && |r.blocks| == |st.blocks|
    ensures r.stack == st.stack && r.brk == st.brk && r.cont == st.cont && |r.funs| == |st.funs|
  {
    st.(blocks := st.blocks[b := st.blocks[b].(node := Some(node))])
  }

  function SetCurrent(st: State, b: nat): (r: State)
    requires Wf(st) && b < |st.blocks|
    ensures Wf(r) && r.current == b && r.blocks == st.blocks
    ensures r.stack == st.stack && r.brk == st.brk && r.cont == st.cont && |r.funs| == |st.funs|
  {
    st.(current := b)
  }

  function AppendCode(st: State, kind: InstructionKind, node: NodeId): (r: State)
    requires Wf(st)
    ensures Wf(r) && r.current == st.current
    ensures r.stack == st.stack && r.brk == st.brk && r.cont == st.cont && |r.funs| == |st.funs|
    ensures |r.blocks| == |st.blocks|
  {
    var b := st.blocks[st.current];
    st.(blocks := st.blocks[st.current := b.(code := b.code + [Instruction(kind, node)])])
  }

  /** The block that takes the next instruction: once the current block has
      successors, a fresh block without any edge takes over. */
  function OpenBlock(st: State): (r: State)
    requires Wf(st)
    ensures Wf(r) && |r.blocks| >= |st.blocks|
    ensures r.stack == st.stack && r.brk == st.brk && r.cont == st.cont && |r.funs| == |st.funs|
  {
    if st.blocks[st.current].after != [] then SetCurrent(AddBlock(st), |st.blocks|) else st
  }

  /** `addInstruction`. */
  function AddInstruction(st: State, kind: InstructionKind, node: NodeId): (r: State)
    requires Wf(st)
    ensures Wf(r) && |r.blocks| == |OpenBlock(st).blocks|
    ensures r.stack == st.stack && r.brk == st.brk && r.cont == st.cont && |r.funs| == |st.funs|
    ensures |r.blocks| >= |st.blocks|
  {
    AppendCode(OpenBlock(st), kind, node)
  }

  function PushLoop(st: State, cont: nat, brk: nat): (r: State)
    requires Wf(st) && cont < |st.blocks| && brk < |st.blocks|
    ensures Wf(r) && r.blocks == st.blocks && r.funs == st.funs && r.stack == st.stack
    ensures r.cont == st.cont + [cont] && r.brk == st.brk + [brk]
  {
    st.(cont := st.cont + [cont], brk := st.brk + [brk])
  }

  function Popped<T>(s: seq<T>): seq<T> {
    if s == [] then s else s[..|s| - 1]
  }

  function PopLoop(st: State): (r: State)
    requires Wf(st)
    ensures Wf(r) && r.blocks == st.blocks && r.funs == st.funs && r.stack == st.stack
    ensures r.cont == Popped(st.cont) && r.brk == Popped(st.brk)
  {
    st.(cont := Popped(st.cont), brk := Popped(st.brk))
  }

  /** A new function with its start and end blocks; its start becomes current. */
  function BeginFunction(st: State, node: NodeId): (r: State)
    requires Wf(st) || st == EMPTY
    ensures Wf(r)
    ensures r.stack == st.stack + [|st.funs|] && r.cont == st.cont && r.brk == st.brk
  {
    var n := |st.blocks|;
    var f := |st.funs|;
    var empty := Vertex([], [], [], None, f);
    st.(blocks := st.blocks + [empty, empty], funs := st.funs + [Fun(n, n + 1, node, [n, n + 1])],
        stack := st.stack + [f], current := n)
  }

  /** The edge that closes a branch, unless a jump has closed it already. */
  function JoinTo(st: State, b: nat): (r: State)
    requires Wf(st) && b < |st.blocks|
    ensures Wf(r) && |r.blocks| == |st.blocks|
    ensures r.stack == st.stack && r.brk == st.brk && r.cont == st.cont && |r.funs| == |st.funs|
  {
    if st.blocks[st.current].after == [] then AddEdge(st, st.current, b) else st
  }

  function EdgeUnless(st: State, skip: bool, b: nat): (r: State)
    requires Wf(st) && b < |st.blocks|
    ensures Wf(r) && |r.blocks| == |st.blocks|
    ensures r.stack == st.stack && r.brk == st.brk && r.cont == st.cont && |r.funs| == |st.funs|
  {
    if skip then st else AddEdge(st, st.current, b)
  }

  // ----- one statement -----

  /** The edge from the current block into a condition block, which becomes current
      and records the statement once more. */
  function EnterCondition(st: State, id: NodeId, n: nat, condId: NodeId): (r: State)
    requires Wf(st) && n < |st.blocks|
    ensures Wf(r) && |r.blocks| >= |st.blocks|
    ensures r.stack == st.stack && r.brk == st.brk && r.cont == st.cont && |r.funs| == |st.funs|
  {
    hide AddBlock, AddEdge, SetNode, SetCurrent, AddInstruction, OpenBlock, PushLoop, PopLoop, JoinTo, EdgeUnless;
    var s1 := AddInstruction(st, Branch, id);
    var s2 := SetNode(AddEdge(s1, s1.current, n), n, condId);
    AddInstruction(SetCurrent(s2, n), Branch, id)
  }

  /** Where an if statement goes when its condition fails. */
  function ElseBranch(st: State, n: nat, impl: Expr, alt: Else): (r: State)
    requires Wf(st) && n + 4 <= |st.blocks|
    ensures Wf(r) && |r.blocks| == |st.blocks|
    ensures r.stack == st.stack && r.brk == st.brk && r.cont == st.cont && |r.funs| == |st.funs|
  {
    hide AddBlock, AddEdge, SetNode, SetCurrent, AddInstruction, OpenBlock, PushLoop, PopLoop, JoinTo, EdgeUnless;
    if alt.NoElse? then AddEdge(st, st.current, n + 3)
    else SetNode(EdgeUnless(st, ConstantTrue(impl), n + 2), n + 2, alt.id)
  }

  /** The edges out of an if statement's condition block, and the start of its
      consequence. */
  function EnterBranches(st: State, n: nat, impl: Expr, consId: NodeId, alt: Else): (r: State)
    requires Wf(st) && n + 4 <= |st.blocks|
    ensures Wf(r) && |r.blocks| >= |st.blocks|
    ensures r.stack == st.stack && r.brk == st.brk && r.cont == st.cont && |r.funs| == |st.funs|
  {
    hide AddBlock, AddEdge, SetNode, SetCurrent, AddInstruction, OpenBlock, PushLoop, PopLoop, JoinTo, EdgeUnless;
    var s4 := SetNode(EdgeUnless(st, ConstantFalse(impl), n + 1), n + 1, consId);
    AddInstruction(SetCurrent(ElseBranch(s4, n, impl, alt), n + 1), Branch, consId)
  }

  /** Everything an if statement does before its consequence is built.  Its blocks
      are n (condition), n + 1 (then), n + 2 (else) and n + 3 (after). */
  function EnterIf(st: State, id: NodeId, cond: Expr, impl: Expr, consId: NodeId, alt: Else): (r: State)
    requires Wf(st)
    ensures Wf(r) && |r.blocks| >= |st.blocks| + 4
    ensures r.stack == st.stack && r.brk == st.brk && r.cont == st.cont && |r.funs| == |st.funs|
  {
    hide AddBlock, EnterCondition, EnterBranches;
    var n := |st.blocks|;
    EnterBranches(EnterCondition(AddBlock(AddBlock(AddBlock(AddBlock(st)))), id, n, cond.id), n, impl, consId, alt)
  }

  /** What happens after the consequence; `n` is the condition block.  The else
      clause itself builds nothing. */
  function LeaveIf(st: State, n: nat, alt: Else): (r: State)
    requires Wf(st) && n + 4 <= |st.blocks|
    ensures Wf(r) && |r.blocks| == |st.blocks|
    ensures r.stack == st.stack && r.brk == st.brk && r.cont == st.cont && |r.funs| == |st.funs|
  {
    hide AddBlock, AddEdge, SetNode, SetCurrent, AddInstruction, OpenBlock, PushLoop, PopLoop, JoinTo, EdgeUnless;
    var s1 := JoinTo(st, n + 3);
    var s2 := if alt.NoElse? then s1 else JoinTo(SetCurrent(s1, n + 2), n + 3);
    SetCurrent(s2, n + 3)
  }

  /** The edges out of a while statement's condition block. */
  function WhileBranches(st: State, n: nat, impl: Expr, bodyId: NodeId): (r: State)
    requires Wf(st) && n + 3 <= |st.blocks|
    ensures Wf(r) && |r.blocks| == |st.blocks|
    ensures r.stack == st.stack && r.brk == st.brk && r.cont == st.cont && |r.funs| == |st.funs|
  {
    hide AddBlock, AddEdge, SetNode, SetCurrent, AddInstruction, OpenBlock, PushLoop, PopLoop, JoinTo, EdgeUnless;
    var s4 := if ConstantTrue(impl) then st else AddEdge(st, n, n + 2);
    SetCurrent(SetNode(EdgeUnless(s4, ConstantFalse(impl), n + 1), n + 1, bodyId), n + 1)
  }

  /** Blocks n (condition), n + 1 (body) and n + 2 (after). */
  function EnterWhile(st: State, id: NodeId, cond: Expr, impl: Expr, bodyId: NodeId): (r: State)
    requires Wf(st)
    ensures Wf(r) && |r.blocks| >= |st.blocks| + 3
    ensures r.stack == st.stack && r.cont == st.cont + [|st.blocks|] && r.brk == st.brk + [|st.blocks| + 2]
            && |r.funs| == |st.funs|
  {
    hide AddBlock, AddEdge, SetNode, SetCurrent, AddInstruction, OpenBlock, PushLoop, PopLoop, JoinTo, EdgeUnless;
    var n := |st.blocks|;
    hide EnterCondition, WhileBranches;
    var s3 := EnterCondition(PushLoop(AddBlock(AddBlock(AddBlock(st))), n, n + 2), id, n, cond.id);
    WhileBranches(s3, n, impl, bodyId)
  }

  function LeaveLoop(st: State, cont: nat, after: nat): (r: State)
    requires Wf(st) && cont < |st.blocks| && after < |st.blocks|
    ensures Wf(r) && |r.blocks| == |st.blocks|
    ensures r.stack == st.stack && r.cont == Popped(st.cont) && r.brk == Popped(st.brk) && |r.funs| == |st.funs|
  {
    hide AddBlock, AddEdge, SetNode, SetCurrent, AddInstruction, OpenBlock, PushLoop, PopLoop, JoinTo, EdgeUnless;
    PopLoop(SetCurrent(JoinTo(st, cont), after))
  }

  /** Where a for-in statement's four blocks start: its first instruction may open a
      continuation block before them. */
  function ForInBase(st: State): (n: nat)
    requires Wf(st)
    ensures n >= |st.blocks|
  {
    |OpenBlock(st).blocks|
  }

  /** Up to the initialise block: blocks n (initialise), n + 1 (next), n + 2 (body)
      and n + 3 (after), where n is ForInBase(st). */
  function ForInInit(st: State, id: NodeId): (r: State)
    requires Wf(st)
    ensures Wf(r) && |r.blocks| == ForInBase(st) + 4 && r.current == ForInBase(st)
    ensures r.stack == st.stack && |r.funs| == |st.funs|
    ensures r.cont == st.cont + [ForInBase(st) + 1] && r.brk == st.brk + [ForInBase(st) + 3]
  {
    hide AddBlock, AddEdge, SetNode, SetCurrent, AddInstruction, OpenBlock, PushLoop, PopLoop, JoinTo, EdgeUnless;
    var n := ForInBase(st);
    var s0 := AddInstruction(st, Branch, id);
    var s1 := PushLoop(AddBlock(AddBlock(AddBlock(AddBlock(s0)))), n + 1, n + 3);
    SetCurrent(AddEdge(s1, s1.current, n), n)
  }

  /** From the initialise block, which asks for the iterator, to the next block. */
  function ForInIterator(st: State, n: nat, right: NodeId): (r: State)
    requires Wf(st) && n + 4 <= |st.blocks|
    ensures Wf(r) && |r.blocks| >= |st.blocks|
    ensures r.stack == st.stack && r.brk == st.brk && r.cont == st.cont && |r.funs| == |st.funs|
  {
    hide AddBlock, AddEdge, SetNode, SetCurrent, AddInstruction, OpenBlock, PushLoop, PopLoop, JoinTo, EdgeUnless;
    SetCurrent(AddEdge(AddInstruction(st, Assign, right), n, n + 1), n + 1)
  }

  /** The next block asks whether there is another element. */
  function ForInNext(st: State, n: nat, right: NodeId, bodyId: NodeId): (r: State)
    requires Wf(st) && n + 4 <= |st.blocks|
    ensures Wf(r) && |r.blocks| >= |st.blocks|
    ensures r.stack == st.stack && r.brk == st.brk && r.cont == st.cont && |r.funs| == |st.funs|
  {
    hide AddBlock, AddEdge, SetNode, SetCurrent, AddInstruction, OpenBlock, PushLoop, PopLoop, JoinTo, EdgeUnless;
    var s4 := AddInstruction(AddInstruction(st, Assign, right), Branch, right);
    var s5 := AddEdge(AddEdge(s4, n + 1, n + 2), s4.current, n + 3);
    SetCurrent(SetNode(s5, n + 2, bodyId), n + 2)
  }

  function EnterForIn(st: State, id: NodeId, right: NodeId, bodyId: NodeId): (r: State)
    requires Wf(st)
    ensures Wf(r) && |r.blocks| >= ForInBase(st) + 4
    ensures r.stack == st.stack && |r.funs| == |st.funs|
    ensures r.cont == st.cont + [ForInBase(st) + 1] && r.brk == st.brk + [ForInBase(st) + 3]
  {
    hide ForInInit, ForInBase, ForInIterator, ForInNext;
    var n := ForInBase(st);
    ForInNext(ForInIterator(ForInInit(st, id), n, right), n, right, bodyId)
  }

  function BuildJump(st: State, id: NodeId, target: nat): (r: State)
    requires Wf(st) && target < |st.blocks|
    ensures Wf(r)
    ensures r.stack == st.stack && r.brk == st.brk && r.cont == st.cont && |r.funs| == |st.funs|
    ensures |r.blocks| >= |st.blocks|
  {
    var n := |st.blocks|;
    var s1 := AddInstruction(SetCurrent(AddBlock(st), n), Branch, id);
    AddEdge(AddEdge(s1, st.current, n), n, target)
  }

  function BuildReturn(st: State, id: NodeId): (r: State)
    requires Wf(st)
    ensures Wf(r)
    ensures r.stack == st.stack && r.brk == st.brk && r.cont == st.cont && |r.funs| == |st.funs|
    ensures |r.blocks| >= |st.blocks|
  {
    var n := |st.blocks|;
    var s1 := AddInstruction(SetCurrent(AddBlock(AddBlock(st)), n), Jump, id);
    var s2 := AddEdge(s1, st.current, n);
    SetCurrent(AddEdge(s2, n, s2.funs[CurrentFun(s2)].end), n + 1)
  }

  /** Closes the function under construction and goes back to block `back`. */
  function LeaveFunction(st: State, back: nat): (r: State)
    requires Wf(st) && |st.stack| >= 2 && back < |st.blocks|
    ensures Wf(r) && |r.blocks| == |st.blocks|
    ensures r.stack == Popped(st.stack) && r.cont == st.cont && r.brk == st.brk && |r.funs| == |st.funs|
  {
    var s := AddEdge(st, st.current, st.funs[CurrentFun(st)].end);
    s.(stack := Popped(s.stack), current := back)
  }

  // ----- the whole builder -----

  /** What a finished build keeps: it only adds blocks and functions, and it leaves
      the stacks as it found them. */
  predicate Grows(st: State, r: State)
    requires Wf(st)
  {
    && Wf(r) && |r.blocks| >= |st.blocks| && |r.funs| >= |st.funs|
    && r.brk == st.brk && r.cont == st.cont && r.stack == st.stack
  }

  /** Statements that build one inner statement. */
  predicate IsNested(s: Stmt) {
    s.If? || s.While? || s.ForIn? || s.Function?
  }

  function Child(s: Stmt): Stmt
    requires IsNested(s)
  {
    if s.If? then s.cons else s.body
  }

  /** The state in which a nested statement's child is built. */
  function Enter(s: Stmt, st: State): (r: Result<State>)
    requires Wf(st) && IsNested(s)
    ensures r.Ok? ==> Wf(r.value) && |r.value.blocks| >= |st.blocks| && |r.value.funs| >= |st.funs|
  {
    hide EnterIf, EnterWhile, EnterForIn, AddInstruction, BeginFunction;
    match s
    case If(id, cond, cons, alt) =>
      (match ConditionNode(cond)
       case None => Err(NilDereference)
       case Some(impl) => Ok(EnterIf(st, id, cond, impl, cons.id, alt)))
    case While(id, cond, body) =>
      (match ConditionNode(cond)
       case None => Err(NilDereference)
       case Some(impl) => Ok(EnterWhile(st, id, cond, impl, body.id)))
    case ForIn(id, right, body) => Ok(EnterForIn(st, id, right, body.id))
    case Function(id, _, _) => Ok(BeginFunction(AddInstruction(st, Assign, id), id))
  }

  /** What is done once the child is built; `st` is the state before Enter. */
  function Leave(s: Stmt, st: State, s1: State): (r: State)
    requires Wf(st) && IsNested(s) && Enter(s, st).Ok? && Grows(Enter(s, st).value, s1)
    ensures Grows(st, r)
  {
    hide LeaveIf, LeaveLoop, LeaveFunction, AddInstruction, BeginFunction, EnterIf, EnterWhile, EnterForIn, ForInBase;
    match s
    case If(_, _, _, alt) => LeaveIf(s1, |st.blocks|, alt)
    case While(_, _, _) => LeaveLoop(s1, |st.blocks|, |st.blocks| + 2)
    case ForIn(_, _, _) => LeaveLoop(s1, ForInBase(st) + 1, ForInBase(st) + 3)
    case Function(id, _, _) => LeaveFunction(s1, AddInstruction(st, Assign, id).current)
  }

  /** Statements without inner statements. */
  function BuildLeaf(s: Stmt, st: State): (r: Result<State>)
    requires Wf(st) && !IsNested(s) && !s.Block?
    ensures r.Ok? ==> Grows(st, r.value)
  {
    hide BuildJump, BuildReturn, AddInstruction;
    match s
    case Plain(_) => Ok(st)
    case Simple(id, kind) => Ok(AddInstruction(st, kind, id))
    case Break(id) =>
      if st.brk == [] then Err(BreakStackEmpty) else Ok(BuildJump(st, id, Last(st.brk)))
    case Continue(id) =>
      if st.cont == [] then Err(ContinueStackEmpty) else Ok(BuildJump(st, id, Last(st.cont)))
    case Return(id) => Ok(BuildReturn(st, id))
  }

  function Build(s: Stmt, st: State): (r: Result<State>)
    requires Wf(st)
    ensures r.Ok? ==> Grows(st, r.value)
    decreases s
  {
    hide Enter, Leave, BuildLeaf;
    if s.Block? then BuildAll(s.children, st)
    else if !IsNested(s) then BuildLeaf(s, st)
    else
      match Enter(s, st)
      case Err(e) => Err(e)
      case Ok(inner) =>
        match Build(Child(s), inner)
        case Err(e) => Err(e)
        case Ok(s1) => Ok(Leave(s, st, s1))
  }

  function BuildAll(ss: Stmts, st: State): (r: Result<State>)
    requires Wf(st)
    ensures r.Ok? ==> Grows(st, r.value)
    decreases ss
  {
    match ss
    case Nil => Ok(st)
    case Cons(s, rest) =>
      match Build(s, st)
      case Err(e) => Err(e)
      case Ok(s1) => BuildAll(rest, s1)
  }

  /** `program._buildCfgBlock` on a fresh builder: the program is function 0, and the
      bodies of its function declarations are built inline as well. */
  function BuildProgram(id: NodeId, ss: Stmts): (r: Result<State>)
    ensures r.Ok? ==> Wf(r.value)
  {
    match BuildAll(Expanded(ss), BeginFunction(EMPTY, id))
    case Err(e) => Err(e)
    case Ok(s1) => Ok(AddEdge(s1, s1.current, s1.funs[0].end))
  }

  // ----- what is in range -----

  lemma InBlocks(st: State)
    requires Wf(st)
    ensures st.current < |st.blocks| && st.funs[CurrentFun(st)].end < |st.blocks|
  {
  }

  lemma ForInBaseIs(st: State, id: NodeId)
    requires Wf(st)
    ensures |AddInstruction(st, Branch, id).blocks| == ForInBase(st)
  {
  }

  lemma FirstFits(st: State)
    requires Wf(st)
    ensures |st.funs| > 0 && st.current < |st.blocks| && st.funs[0].end < |st.blocks|
  {
    assert CurrentFun(st) < |st.funs|;
    assert FunInRange(st.funs[0], |st.blocks|);
  }
}
