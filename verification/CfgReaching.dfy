/** Paths through whole statements and programs: the builder's graph and the flow read off
    the syntax agree. */
module CfgReaching {
  import opened CfgSyntax
  import opened CfgGraph
  import opened CfgGrowth
  import opened CfgInvariant
  import opened CfgTold
  import opened CfgTelling
  import opened CfgFlow
  import opened CfgReach
  import opened CfgEntering

  /** A block that only waits for edges. */
  ghost predicate IsSink(st: State, b: nat, X: set<nat>)
    requires Wf(st)
  {
    b < |st.blocks| && b in X && b != st.current && Look(st, b) == Fresh(Look(st, b).reached)
  }

  ghost predicate IsGuard(st: State, b: nat)
    requires Wf(st)
  {
    b < |st.blocks| && b != st.current && Look(st, b).mine && (CursorOf(st).reached ==> Look(st, b).reached)
  }

  /** The targets of jumps: the function's end, and in a loop its guard and the block
      behind it. */
  ghost predicate Sinks(st: State, inLoop: bool, X: set<nat>) {
    && Good(st) && Below(X, |st.blocks|) && IsSink(st, EndOf(st), X)
    && (inLoop ==> st.brk != [] && IsSink(st, Last(st.brk), X) && st.cont != [] && IsGuard(st, Last(st.cont)))
  }

  /** From `st` to `r` the build did what the flow says. */
  ghost predicate Went(st: State, r: State, flow: Flow, X: set<nat>) {
    && Step(st, r, flow.missed, X, flow.edges) && CursorOf(r) == flow.end
    && forall x: nat :: x < |st.blocks| ==>
         (x in Reach(r) <==> x in Reach(st) || (flow.breaks && IsTop(st.brk, x)) || (flow.leaves && x == EndOf(st)))
  }

  predicate IsTop(s: seq<nat>, x: nat) {
    s != [] && x == Last(s)
  }

  // ----- leaves -----

  lemma LeafWent(s: Stmt, st: State, inLoop: bool, X: set<nat>)
    requires Sinks(st, inLoop, X) && WellNested(s, inLoop) && !IsNested(s) && !s.Block? && Build(s, st).Ok?
    ensures Went(st, Build(s, st).value, FlowOf(s, CursorOf(st)), X)
  {
    hide Step, Reach, BuildJump, BuildReturn, AddInstruction, Dual, Owned, Quiet;
    match s
    case Plain(_) => SameGraphStep(st, st, X);
    case Simple(id, kind) => AddInstructionStep(st, kind, id, X);
    case Break(id) => BuildJumpStep(st, id, Last(st.brk), X);
    case Continue(id) => BuildJumpStep(st, id, Last(st.cont), X);
    case Return(id) => BuildReturnStep(st, id, X);
  }

  // ----- what a child leaves alone -----

  /** A block that the build of a child may not touch. */
  lemma AsideKept(inner: State, s1: State, m: set<NodeId>, b: nat)
    requires Good(inner) && Keeps(inner, s1) && Grew(|inner.blocks|, inner.current, m, inner, s1)
    requires b < |inner.blocks| && b != inner.current && Look(inner, b).open
    ensures b < |s1.blocks| && b != s1.current
    ensures Look(s1, b) == Look(inner, b).(reached := b in Reach(s1), blank := Look(s1, b).blank)
    ensures Look(inner, b).blank ==> Look(s1, b).blank
  {
    hide Reach, Dual, Owned;
    OldEdges(inner, s1, m, b);
    if Look(inner, b).blank {
      QuietKept(inner, s1, m, b);
    }
  }

  lemma SinkKept(st: State, r: State, m: set<NodeId>, b: nat, X: set<nat>)
    requires Good(st) && Keeps(st, r) && Grew(|st.blocks|, st.current, m, st, r) && IsSink(st, b, X)
    ensures IsSink(r, b, X)
  {
    hide Reach, Dual, Owned, NodesGrew, EdgesGrew;
    AsideKept(st, r, m, b);
  }

  lemma GuardKept(st: State, r: State, m: set<NodeId>, b: nat)
    requires Good(st) && Keeps(st, r) && Grew(|st.blocks|, st.current, m, st, r) && IsGuard(st, b)
    requires (b in Reach(st) ==> b in Reach(r)) && (CursorOf(r).reached ==> CursorOf(st).reached)
    ensures IsGuard(r, b)
  {
    hide Reach, Dual, Owned, NodesGrew;
    StillOwned(st, r, b);
    assert Mine(|st.blocks|, st.current, r.current);
  }

  /** The targets of jumps are still there when a statement is built. */
  lemma SinksKept(st: State, r: State, m: set<NodeId>, inLoop: bool, X: set<nat>)
    requires Sinks(st, inLoop, X) && Keeps(st, r) && Grows(st, r) && Grew(|st.blocks|, st.current, m, st, r)
    requires forall x: nat :: x < |st.blocks| && x in Reach(st) ==> x in Reach(r)
    requires CursorOf(r).reached ==> CursorOf(st).reached
    ensures Sinks(r, inLoop, X)
  {
    hide Reach, Dual, Owned, NodesGrew, IsSink, IsGuard, Look;
    EndKept(st, r);
    SinkKept(st, r, m, EndOf(st), X);
    if inLoop {
      SinkKept(st, r, m, Last(st.brk), X);
      LastInRange(st.cont, |st.blocks|);
      GuardKept(st, r, m, Last(st.cont));
    }
  }

  // ----- branches -----

  /** A nested statement, entered, with its child built. */
  ghost predicate ChildWent(s: Stmt, st: State, inner: State, s1: State, X: set<nat>, flow: Flow) {
    && IsNested(s) && Good(st) && Enter(s, st) == Ok(inner) && Good(inner) && Grows(inner, s1) && Keeps(inner, s1)
    && Grew(|inner.blocks|, inner.current, Built(Child(s)), inner, s1) && Went(inner, s1, flow, X)
  }

  /** A block that waits for the child is reached if it was. */
  lemma WaitKept(st: State, inner: State, s1: State, m: set<NodeId>, flow: Flow, X: set<nat>, b: nat)
    requires Good(inner) && Keeps(inner, s1) && Grew(|inner.blocks|, inner.current, m, inner, s1)
    requires Went(inner, s1, flow, X) && EndOf(inner) < |st.blocks| && inner.brk == st.brk && Wf(st)
    requires |st.blocks| <= b < |inner.blocks| && b != inner.current && Look(inner, b).open
    ensures b < |s1.blocks| && b != s1.current && Look(s1, b) == Look(inner, b).(blank := Look(s1, b).blank)
    ensures Look(inner, b).blank ==> Look(s1, b) == Look(inner, b)
  {
    hide Reach, Step, Keeps, Grew, Good;
    AsideKept(inner, s1, m, b);
    assert b in Reach(s1) <==> b in Reach(inner);
  }

  lemma IfMid(s: Stmt, st: State, inner: State, s1: State, X: set<nat>, flow: Flow)
    requires s.If? && ChildWent(s, st, inner, s1, X, flow) && Below(X, |st.blocks|)
    ensures var n, o := |st.blocks|, Opened(CursorOf(st));
            var f := o.reached && !Pruned(s.cond, true);
      && Step(st, s1, EnterMissed(s, o) + flow.missed, X, flow.edges) && n + 4 <= |s1.blocks| && SameReach(st, inner, n)
      && s1.current != n + 2 && s1.current != n + 3 && Look(s1, s1.current).mine
      && EndOf(inner) == EndOf(st) < n && inner.brk == st.brk
      && Look(s1, n + 3) == Fresh(s.alt.NoElse? && o.reached)
      && (s.alt.ElseClause? ==> Look(s1, n + 2) == Look(s1, n + 2).(reached := f, open := true, mine := true))
  {
    hide Step, Reach, EnterIf, Dual, Owned, NodesGrew, EdgesGrew, Quiet, ConstantTrue, ConstantFalse, Wf, Look, Went;
    var n, o := |st.blocks|, Opened(CursorOf(st));
    EnterIfStep(st, s, ConditionNode(s.cond).value, X);
    EnterGrew(s, st);
    EndSame(st, inner);
    WaitKept(st, inner, s1, Built(s.cons), flow, X, n + 2);
    WaitKept(st, inner, s1, Built(s.cons), flow, X, n + 3);
    WentStep(inner, s1, flow, X);
    CurrentIsMine(s1);
    StepThen(st, inner, s1, EnterMissed(s, o), flow.missed, EnterMissed(s, o) + flow.missed, X, 0, flow.edges);
  }

  lemma CurrentIsMine(st: State)
    requires Good(st)
    ensures Look(st, st.current).mine
  {
  }

  lemma WentStep(st: State, r: State, flow: Flow, X: set<nat>)
    requires Went(st, r, flow, X)
    ensures Step(st, r, flow.missed, X, flow.edges)
  {
  }

  /** Of the older blocks, leaving a branch reaches those the child did. */
  lemma LeftReach(st: State, inner: State, s1: State, r: State, flow: Flow, X: set<nat>, N: set<nat>)
    requires Wf(st) && Wf(inner) && Went(inner, s1, flow, X) && SameReach(st, inner, |st.blocks|)
    requires |st.blocks| <= |inner.blocks| && EndOf(inner) == EndOf(st) && inner.brk == st.brk
    requires Reach(r) == Reach(s1) + N && forall x <- N :: x >= |st.blocks|
    ensures forall x: nat :: x < |st.blocks| ==>
              (x in Reach(r) <==>
               x in Reach(st) || (flow.breaks && IsTop(st.brk, x)) || (flow.leaves && x == EndOf(st)))
  {
    hide Reach, Step, CursorOf, IsTop, Wf, EndOf;
  }

  lemma IfWent(s: Stmt, st: State, inner: State, s1: State, X: set<nat>, flow: Flow)
    requires s.If? && ChildWent(s, st, inner, s1, X, flow) && Below(X, |st.blocks|)
    ensures Went(st, Leave(s, st, s1), IfFlow(s, Opened(CursorOf(st)), flow), X) && Others(s1, Leave(s, st, s1))
  {
    hide Step, Reach, LeaveIf, Dual, Owned, NodesGrew, EdgesGrew, Quiet, Pruned, Wf, EnterIf, Grew, Look, EnterMissed,
        IsTop, EndOf, Later;
    IfMid(s, st, inner, s1, X, flow);
    var n, o := |st.blocks|, Opened(CursorOf(st));
    var q, f := o.reached, o.reached && !Pruned(s.cond, true);
    LeaveIfStep(s1, n, s.alt, q, f, X);
    var m := EnterMissed(s, o) + flow.missed;
    var other := if s.alt.NoElse? then q else f;
    var r := LeaveIf(s1, n, s.alt);
    StepThen(st, s1, r, m, {}, m, X, flow.edges, Count(GoesOn(flow) && other));
    LeftReach(st, inner, s1, r, flow, X, ReachedIf(GoesOn(flow) || other, n + 3));
    StepOthers(s1, r, {}, X, Count(GoesOn(flow) && other));
  }

  // ----- loops -----

  /** The loop around a child: its guard and the block behind it. */
  ghost predicate LoopAround(st: State, inner: State, cont: nat, after: nat, y: bool) {
    && Wf(st) && Wf(inner) && |st.blocks| <= cont < |inner.blocks| && |st.blocks| <= after < |inner.blocks|
    && cont != after && cont != inner.current && after != inner.current && inner.brk == st.brk + [after]
    && EndOf(inner) == EndOf(st) && Look(inner, after) == Fresh(y) && Look(inner, cont).mine
    && (CursorOf(inner).reached ==> Look(inner, cont).reached)
  }

  lemma GuardMid(inner: State, s1: State, m: set<NodeId>, cont: nat)
    requires Wf(inner) && Keeps(inner, s1) && Grew(|inner.blocks|, inner.current, m, inner, s1)
    requires cont < |inner.blocks| && cont != inner.current && Look(inner, cont).mine
    requires cont in Reach(inner) ==> cont in Reach(s1)
    ensures cont < |s1.blocks| && cont != s1.current && Look(s1, cont).mine
    ensures Look(inner, cont).reached ==> Look(s1, cont).reached
  {
    hide Reach, Dual, Owned, NodesGrew, EdgesGrew;
    StillOwned(inner, s1, cont);
    assert Mine(|inner.blocks|, inner.current, s1.current);
  }

  lemma WentReach(st: State, r: State, flow: Flow, X: set<nat>, x: nat)
    requires Went(st, r, flow, X) && x < |st.blocks|
    ensures x in Reach(r) <==> x in Reach(st) || (flow.breaks && IsTop(st.brk, x)) || (flow.leaves && x == EndOf(st))
  {
    hide Reach, Step, IsTop;
  }

  lemma ReachedLook(st: State, b: nat)
    requires Wf(st) && b < |st.blocks|
    ensures Look(st, b).reached <==> b in Reach(st)
  {
  }

  lemma LoopMid(s: Stmt, st: State, inner: State, s1: State, X: set<nat>, flow: Flow, cont: nat, after: nat, y: bool)
    requires ChildWent(s, st, inner, s1, X, flow) && LoopAround(st, inner, cont, after, y)
    requires flow.end.reached ==> CursorOf(inner).reached
    ensures cont < |s1.blocks| && after < |s1.blocks| && cont != s1.current && after != s1.current
    ensures Look(s1, s1.current).mine && Look(s1, cont).mine && (flow.end.reached ==> Look(s1, cont).reached)
    ensures Look(s1, after) == Fresh(y || flow.breaks)
  {
    hide Step, Reach, Dual, Owned, NodesGrew, EdgesGrew, Quiet, Enter, Wf, Went, Look;
    WentReach(inner, s1, flow, X, after);
    WentReach(inner, s1, flow, X, cont);
    ReachedLook(inner, after);
    InBlocks(st);
    CurrentIsMine(s1);
    AsideKept(inner, s1, Built(Child(s)), after);
    GuardMid(inner, s1, Built(Child(s)), cont);
  }

  /** Excepting a new block no longer. */
  lemma StepExcept(st: State, r: State, m: set<NodeId>, X: set<nat>, b: nat, w: int)
    requires Step(st, r, m, X + {b}, w) && |st.blocks| <= b < |r.blocks| && Below(X, |st.blocks|) && Look(r, b).mine
    ensures Step(st, r, m, X, w - Count(Look(r, b).reached))
  {
    hide Missed, Weight, Reach;
    var k := CurrentFun(st);
    WeightExcept(st, k, X, b);
    WeightExcept(r, k, X, b);
    ReachWithin(st);
  }

  lemma LoopWent(s: Stmt, st: State, inner: State, s1: State, X: set<nat>, flow: Flow, m: set<NodeId>, w: int,
      cont: nat, after: nat, y: bool)
    requires ChildWent(s, st, inner, s1, X + {after}, flow) && LoopAround(st, inner, cont, after, y)
    requires Entered(st, inner, m, X + {after}, w) && Below(X, |st.blocks|)
    requires flow.end.reached ==> CursorOf(inner).reached
    ensures cont < |s1.blocks| && after < |s1.blocks|
    ensures var e := w + flow.edges + Count(GoesOn(flow)) - Count(y || flow.breaks);
            Went(st, LeaveLoop(s1, cont, after),
                 Flow(Cursor(y || flow.breaks, true), false, flow.leaves, m + flow.missed, e), X)
    ensures Others(s1, LeaveLoop(s1, cont, after))
  {
    hide Step, Reach, LeaveLoop, Dual, Owned, NodesGrew, EdgesGrew, Quiet, Wf, Grew, Look, Enter, Later;
    var Y := X + {after};
    LoopMid(s, st, inner, s1, Y, flow, cont, after, y);
    LeaveLoopStep(s1, cont, after, y || flow.breaks, Y);
    var r := LeaveLoop(s1, cont, after);
    StepThen(st, inner, s1, m, flow.missed, m + flow.missed, Y, w, flow.edges);
    StepThen(st, s1, r, m + flow.missed, {}, m + flow.missed, Y, w + flow.edges, Count(GoesOn(flow)));
    StepExcept(st, r, m + flow.missed, X, after, w + flow.edges + Count(GoesOn(flow)));
    assert Last(inner.brk) == after;
    StepOthers(s1, r, {}, Y, Count(GoesOn(flow)));
  }

  /** The loop has been entered: can its body be reached, and the block behind it? */
  ghost predicate LoopEntered(s: Stmt, st: State, inner: State, X: set<nat>, cont: nat, after: nat, body: bool,
      stops: bool)
    requires IsLoop(s)
  {
    && LoopAround(st, inner, cont, after, stops) && CursorOf(inner) == Cursor(body, true)
    && Entered(st, inner, EnterMissed(s, Opened(CursorOf(st))), X + {after}, Count(stops))
    && inner.cont == st.cont + [cont]
  }

  lemma WhileEntered(s: Stmt, st: State, inner: State, X: set<nat>)
    requires s.While? && Good(st) && Enter(s, st) == Ok(inner) && Below(X, |st.blocks|)
    ensures var n, q := |st.blocks|, Opened(CursorOf(st)).reached;
      LoopEntered(s, st, inner, X, n, n + 2, q && !Pruned(s.cond, false), q && !Pruned(s.cond, true))
  {
    hide Step, Reach, EnterWhile, Dual, Owned, NodesGrew, EdgesGrew, Quiet, ConstantTrue, ConstantFalse;
    EnterWhileStep(st, s, ConditionNode(s.cond).value, X);
    EnterGrew(s, st);
    EndSame(st, inner);
  }

  lemma ForInEntered(s: Stmt, st: State, inner: State, X: set<nat>)
    requires s.ForIn? && Good(st) && Enter(s, st) == Ok(inner) && Below(X, |st.blocks|)
    ensures var n, q := ForInBase(st), Opened(CursorOf(st)).reached; LoopEntered(s, st, inner, X, n + 1, n + 3, q, q)
  {
    hide Step, Reach, EnterForIn, Dual, Owned, NodesGrew, EdgesGrew, Quiet, ForInBase;
    EnterForInStep(st, s, X);
    EnterGrew(s, st);
    EndSame(st, inner);
  }

  lemma WhileWent(s: Stmt, st: State, inner: State, s1: State, X: set<nat>, flow: Flow)
    requires s.While? && ChildWent(s, st, inner, s1, X + {|st.blocks| + 2}, flow) && Below(X, |st.blocks|)
    requires flow.end.reached ==> CursorOf(inner).reached
    ensures Went(st, Leave(s, st, s1), WhileFlow(s, Opened(CursorOf(st)), flow), X) && Others(s1, Leave(s, st, s1))
  {
    hide Step, Reach, EnterWhile, LeaveLoop, Dual, Owned, Grew, Quiet, ConstantTrue, ConstantFalse, Wf, LoopAround,
        Look, Went, SameReach, Pruned, EnterMissed, Later;
    var n, o := |st.blocks|, Opened(CursorOf(st));
    var stops := o.reached && !Pruned(s.cond, true);
    WhileEntered(s, st, inner, X);
    LoopWent(s, st, inner, s1, X, flow, EnterMissed(s, o), Count(stops), n, n + 2, stops);
  }

  lemma ForInWent(s: Stmt, st: State, inner: State, s1: State, X: set<nat>, flow: Flow)
    requires s.ForIn? && Good(st) && ChildWent(s, st, inner, s1, X + {ForInBase(st) + 3}, flow) && Below(X, |st.blocks|)
    requires flow.end.reached ==> CursorOf(inner).reached
    ensures Went(st, Leave(s, st, s1), ForInFlow(s, Opened(CursorOf(st)), flow), X) && Others(s1, Leave(s, st, s1))
  {
    hide Step, Reach, EnterForIn, LeaveLoop, Dual, Owned, Grew, Quiet, Wf, LoopAround, Look, Went, ForInBase, SameReach,
        EnterMissed, Later;
    var n, o := ForInBase(st), Opened(CursorOf(st));
    ForInEntered(s, st, inner, X);
    LoopWent(s, st, inner, s1, X, flow, EnterMissed(s, o), Count(o.reached), n + 1, n + 3, o.reached);
  }

  // ----- targets inside a statement -----

  lemma EnterKept(s: Stmt, st: State, inner: State)
    requires Good(st) && IsNested(s) && !s.Function? && Enter(s, st) == Ok(inner)
    ensures Keeps(st, inner) && Grew(|st.blocks|, st.current, EnterIds(s), st, inner)
    ensures s.If? ==> Grows(st, inner)
  {
    hide EnterIf, EnterWhile, EnterForIn, Dual, Owned, Wf, NodesGrew, EdgesGrew, ForInBase;
    EnterKeeps(s, st);
    EnterGrew(s, st);
  }

  lemma IfSinks(s: Stmt, st: State, inner: State, inLoop: bool, X: set<nat>)
    requires s.If? && Sinks(st, inLoop, X) && Enter(s, st) == Ok(inner)
    ensures Sinks(inner, inLoop, X)
    ensures CursorOf(inner) == Cursor(Opened(CursorOf(st)).reached && !Pruned(s.cond, false), true)
  {
    hide EnterIf, Step, Reach, Dual, Owned, NodesGrew, EdgesGrew, Quiet, ConstantTrue, ConstantFalse, IsSink, IsGuard;
    EnterKept(s, st, inner);
    EnterIfStep(st, s, ConditionNode(s.cond).value, X);
    SinksKept(st, inner, EnterIds(s), inLoop, X);
  }

  lemma LoopSinks(s: Stmt, st: State, inner: State, inLoop: bool, X: set<nat>, cont: nat, after: nat, body: bool,
      stops: bool)
    requires IsLoop(s) && Sinks(st, inLoop, X) && Enter(s, st) == Ok(inner)
    requires LoopEntered(s, st, inner, X, cont, after, body, stops)
    ensures Sinks(inner, true, X + {after})
  {
    hide Enter, Step, Reach, Dual, Owned, NodesGrew, EdgesGrew, Quiet;
    EnterKept(s, st, inner);
    SinkKept(st, inner, EnterIds(s), EndOf(st), X);
    assert Last(inner.brk) == after && Last(inner.cont) == cont;
  }

  /** A function entered: its own instruction, its start and its end. */
  ghost predicate FunctionBegun(st: State, outer: State, inner: State, id: NodeId, X: set<nat>) {
    && Good(st) && Good(outer) && Keeps(st, outer) && Good(inner) && |outer.blocks| <= |inner.blocks|
    && Step(st, outer, Only(!Opened(CursorOf(st)).reached, id), X, 0) && Reach(outer) == Reach(st)
    && Look(outer, outer.current) == Started(Opened(CursorOf(st)).reached)
    && Missed(inner) == Missed(outer) && Reach(inner) == Reach(outer) + {|outer.blocks|}
    && inner.stack == outer.stack + [|outer.funs|] && inner.brk == outer.brk && inner.cont == outer.cont
    && inner.current == |outer.blocks| && CursorOf(inner) == START && EndOf(inner) == |outer.blocks| + 1
    && Look(inner, |outer.blocks| + 1) == Fresh(false) && |inner.blocks| == |outer.blocks| + 2
    && Own(inner, |outer.funs|) == {|outer.blocks|} && |inner.funs| == |outer.funs| + 1
    && inner.blocks[outer.current].after == []
    && forall j: nat, Y: set<nat> {:trigger Weight(inner, j, Y)} ::
         j < |outer.funs| ==> Weight(inner, j, Y) == Weight(outer, j, Y)
  }

  lemma EnterFunction(s: Stmt, st: State, X: set<nat>)
    requires s.Function? && Good(st)
    ensures var outer := AddInstruction(st, Assign, s.id);
      FunctionBegun(st, outer, BeginFunction(outer, s.id), s.id, X)
  {
    hide AddInstruction, Step, Reach, Missed, Weight, Own, Dual, Owned, Quiet;
    AddInstructionStep(st, Assign, s.id, X);
    AddInstructionKeeps(st, Assign, s.id);
    var outer := AddInstruction(st, Assign, s.id);
    BeginFunctionStep(outer, s.id);
    BeginFunctionKeeps(outer, s.id);
  }

  /** Once a function's body is built, its own end and the older blocks. */
  lemma FunctionBuilt(st: State, outer: State, inner: State, s1: State, id: NodeId, X: set<nat>, m: set<NodeId>,
      flow: Flow)
    requires FunctionBegun(st, outer, inner, id, X) && Grows(inner, s1) && Keeps(inner, s1)
    requires Grew(|inner.blocks|, inner.current, m, inner, s1) && !flow.breaks
    requires Went(inner, s1, flow, {|outer.blocks| + 1})
    ensures var end, c := |outer.blocks| + 1, outer.current;
      && EndOf(s1) == end < |s1.blocks| && end != s1.current && Look(s1, s1.current).mine
      && Look(s1, end) == Fresh(flow.leaves) && c < |outer.blocks| && c != s1.current && s1.blocks[c].after == []
      && SameReach(outer, s1, |outer.blocks|)
  {
    hide Step, Reach, Dual, Owned, NodesGrew, Quiet, Look, Weight, Missed, Own;
    var end := |outer.blocks| + 1;
    EndKept(inner, s1);
    CurrentIsMine(s1);
    AsideKept(inner, s1, m, end);
    WentReach(inner, s1, flow, {end}, end);
    ReachedLook(inner, end);
    InBlocks(outer);
    OldEdges(inner, s1, m, outer.current);
  }

  lemma FunctionSteps(st: State, outer: State, inner: State, s1: State, r: State, id: NodeId, X: set<nat>, flow: Flow)
    requires FunctionBegun(st, outer, inner, id, X) && Grows(inner, s1)
    requires Step(inner, s1, flow.missed, {|outer.blocks| + 1}, flow.edges)
    requires Wf(r) && |s1.blocks| <= |r.blocks| && |s1.funs| <= |r.funs| && r.stack == st.stack
    requires Missed(r) == Missed(s1)
    requires forall j: nat, Y: set<nat> {:trigger Weight(r, j, Y)} ::
               j < |s1.funs| && j != |outer.funs| ==> Weight(r, j, Y) == Weight(s1, j, Y)
    ensures Step(st, r, Only(!Opened(CursorOf(st)).reached, id) + flow.missed, X, 0)
  {
    hide Missed, Weight, Reach, Own, Quiet, Dual, Owned, Look;
    assert CurrentFun(inner) == |outer.funs|;
    forall j: nat, Y: set<nat> | j < |st.funs|
      ensures Weight(r, j, Y) == Weight(outer, j, Y)
    {
      assert Weight(r, j, Y) == Weight(s1, j, Y) == Weight(inner, j, Y);
    }
  }

  lemma FunctionWent(s: Stmt, st: State, outer: State, inner: State, s1: State, X: set<nat>, m: set<NodeId>, flow: Flow)
    requires s.Function? && FunctionBegun(st, outer, inner, s.id, X) && Grows(inner, s1) && Keeps(inner, s1)
    requires Grew(|inner.blocks|, inner.current, m, inner, s1) && !flow.breaks
    requires Went(inner, s1, flow, {|outer.blocks| + 1})
    ensures outer.current < |s1.blocks| && |s1.stack| >= 2
    ensures var o := Opened(CursorOf(st));
      Went(st, LeaveFunction(s1, outer.current), Flow(o, false, false, Only(!o.reached, s.id) + flow.missed, 0), X)
  {
    hide Step, Reach, Dual, Owned, NodesGrew, EdgesGrew, Quiet, Weight, Missed, Own, LeaveFunction;
    FunctionBuilt(st, outer, inner, s1, s.id, X, m, flow);
    LeaveFunctionStep(s1, outer.current);
    var r := LeaveFunction(s1, outer.current);
    FunctionSteps(st, outer, inner, s1, r, s.id, X, flow);
  }

  // ----- any statement -----

  lemma {:induction false} NestedNoBreak(s: Stmt, c: Cursor)
    requires WellNested(s, false)
    ensures !FlowOf(s, c).breaks
  {
    match s
    case Block(_, _, children) => NestedNoBreakAll(children, c);
    case If(_, cond, cons, _) => NestedNoBreak(cons, Cursor(Opened(c).reached && !Pruned(cond, false), true));
    case _ =>
  }

  lemma {:induction false} NestedNoBreakAll(ss: Stmts, c: Cursor)
    requires WellNestedAll(ss, false)
    ensures !FlowAll(ss, c).breaks
  {
    match ss
    case Nil =>
    case Cons(s, rest) =>
      NestedNoBreak(s, c);
      NestedNoBreakAll(rest, FlowOf(s, c).end);
  }

  lemma WentThen(st: State, s1: State, r: State, a: Flow, b: Flow, X: set<nat>)
    requires Wf(s1) && Went(st, s1, a, X) && Went(s1, r, b, X) && s1.brk == st.brk && EndOf(s1) == EndOf(st)
    ensures Went(st, r, Both(a, b), X)
  {
    hide Step, Reach, IsTop, CursorOf, EndOf;
    WentStep(st, s1, a, X);
    WentStep(s1, r, b, X);
    StepThen(st, s1, r, a.missed, b.missed, a.missed + b.missed, X, a.edges, b.edges);
    assert |st.blocks| <= |s1.blocks| by { StepGrows(st, s1, a.missed, X, a.edges); }
  }

  lemma StepOthers(st: State, r: State, m: set<NodeId>, X: set<nat>, w: int)
    requires Step(st, r, m, X, w)
    ensures Others(st, r)
  {
  }

  lemma StepGrows(st: State, r: State, m: set<NodeId>, X: set<nat>, w: int)
    requires Step(st, r, m, X, w)
    ensures |st.blocks| <= |r.blocks|
  {
  }

  /** What holds when a statement's child is about to be built. */
  lemma InnerSinks(s: Stmt, st: State, inner: State, inLoop: bool, X: set<nat>) returns (Y: set<nat>)
    requires IsNested(s) && Sinks(st, inLoop, X) && Enter(s, st) == Ok(inner)
    ensures Y == Excepted(s, st, X) && Sinks(inner, InLoop(s, inLoop), Y)
    ensures CursorOf(inner) == InnerCursor(s, CursorOf(st))
  {
    hide Step, Reach, Dual, Owned, Enter, LoopAround, Entered, IsSink, IsGuard;
    Y := Excepted(s, st, X);
    match s
    case If(_, _, _, _) => IfSinks(s, st, inner, inLoop, X);
    case While(_, cond, _) =>
      var n, q := |st.blocks|, Opened(CursorOf(st)).reached;
      WhileEntered(s, st, inner, X);
      LoopSinks(s, st, inner, inLoop, X, n, n + 2, q && !Pruned(cond, false), q && !Pruned(cond, true));
    case ForIn(_, _, _) =>
      var n, q := ForInBase(st), Opened(CursorOf(st)).reached;
      ForInEntered(s, st, inner, X);
      LoopSinks(s, st, inner, inLoop, X, n + 1, n + 3, q, q);
    case Function(_, _, _) => FunctionSinks(s, st, inner, X);
  }

  function InnerCursor(s: Stmt, c: Cursor): Cursor
    requires IsNested(s)
  {
    match s
    case If(_, cond, _, _) => Cursor(Opened(c).reached && !Pruned(cond, false), true)
    case While(_, cond, _) => Cursor(Opened(c).reached && !Pruned(cond, false), true)
    case ForIn(_, _, _) => Cursor(Opened(c).reached, true)
    case Function(_, _, _) => START
  }

  /** The excepted blocks while the child is built. */
  function Excepted(s: Stmt, st: State, X: set<nat>): set<nat>
    requires IsNested(s) && Wf(st)
  {
    match s
    case If(_, _, _, _) => X
    case While(_, _, _) => X + {|st.blocks| + 2}
    case ForIn(_, _, _) => X + {ForInBase(st) + 3}
    case Function(id, _, _) => {|AddInstruction(st, Assign, id).blocks| + 1}
  }

  lemma FunctionSinks(s: Stmt, st: State, inner: State, X: set<nat>)
    requires s.Function? && Good(st) && Enter(s, st) == Ok(inner)
    ensures Sinks(inner, false, Excepted(s, st, X)) && CursorOf(inner) == START
  {
    hide AddInstruction, BeginFunction, Step, Reach, Missed, Weight, Own, Dual, Owned, Quiet;
    EnterFunction(s, st, X);
  }

  lemma NestedWent(s: Stmt, st: State, inner: State, s1: State, inLoop: bool, X: set<nat>)
    requires IsNested(s) && Sinks(st, inLoop, X) && WellNested(s, inLoop)
    requires ChildWent(s, st, inner, s1, Excepted(s, st, X), FlowOf(Child(s), InnerCursor(s, CursorOf(st))))
    requires CursorOf(inner) == InnerCursor(s, CursorOf(st))
    ensures Went(st, Leave(s, st, s1), FlowOf(s, CursorOf(st)), X)
    ensures !s.Function? ==> Others(s1, Leave(s, st, s1))
  {
    hide Step, Reach, Dual, Owned, Leave, EnterIf, EnterWhile, EnterForIn, ForInBase, Keeps, Grew, IsSink, IsGuard,
        Went;
    var c := InnerCursor(s, CursorOf(st));
    var flow := FlowOf(Child(s), c);
    if !c.reached {
      NoWayIn(Child(s), c);
    }
    match s
    case If(_, _, _, _) => IfWent(s, st, inner, s1, X, flow);
    case While(_, _, _) => WhileWent(s, st, inner, s1, X, flow);
    case ForIn(_, _, _) => ForInWent(s, st, inner, s1, X, flow);
    case Function(_, _, body) => NestedFunctionWent(s, st, inner, s1, X);
  }

  lemma NestedFunctionWent(s: Stmt, st: State, inner: State, s1: State, X: set<nat>)
    requires s.Function? && WellNested(s.body, false)
    requires Good(st) && ChildWent(s, st, inner, s1, Excepted(s, st, X), FlowOf(s.body, START))
    ensures Went(st, Leave(s, st, s1), FlowOf(s, CursorOf(st)), X)
  {
    hide Step, Reach, Dual, Owned, Keeps, Grew, FunctionBegun, LeaveFunction, AddInstruction, BeginFunction, Went;
    NestedNoBreak(s.body, START);
    EnterFunction(s, st, X);
    FunctionWent(s, st, AddInstruction(st, Assign, s.id), inner, s1, X, Built(s.body), FlowOf(s.body, START));
  }

  /** The same for the child that the builder builds. */
  lemma ChildBuilt(s: Stmt, st: State, inLoop: bool, X: set<nat>) returns (inner: State, s1: State, Y: set<nat>)
    requires IsNested(s) && Sinks(st, inLoop, X) && WellNested(s, inLoop) && Build(s, st).Ok?
    ensures Enter(s, st) == Ok(inner) && Sinks(inner, InLoop(s, inLoop), Y) && Build(Child(s), inner) == Ok(s1)
    ensures Y == Excepted(s, st, X) && CursorOf(inner) == InnerCursor(s, CursorOf(st))
    ensures Grows(inner, s1) && Keeps(inner, s1) && Grew(|inner.blocks|, inner.current, Built(Child(s)), inner, s1)
    ensures WellNested(Child(s), InLoop(s, inLoop)) && Build(s, st) == Ok(Leave(s, st, s1))
  {
    hide Step, Reach, Enter, Leave, NodesGrew, EdgesGrew, Dual, Owned, Look, Excepted;
    BuildNested(s, st);
    inner := Enter(s, st).value;
    Y := InnerSinks(s, st, inner, inLoop, X);
    s1 := Build(Child(s), inner).value;
    BuildGrew(Child(s), inner);
    SinksTargets(inner, InLoop(s, inLoop), Y);
    BuildKeeps(Child(s), inner, InLoop(s, inLoop));
  }

  /** Building a well-nested statement adds to the paths exactly what FlowOf says: where
      they end, which jumps they lead to, the nodes they miss and the edges they use. */
  lemma {:induction false} BuildWent(s: Stmt, st: State, inLoop: bool, X: set<nat>)
    requires Sinks(st, inLoop, X) && WellNested(s, inLoop) && Build(s, st).Ok?
    ensures Went(st, Build(s, st).value, FlowOf(s, CursorOf(st)), X)
    ensures Sinks(Build(s, st).value, inLoop, X)
    decreases s
  {
    hide Step, Reach, Enter, Leave, BuildLeaf, NodesGrew, EdgesGrew, Dual, Owned, Wf, Look, Excepted;
    var r := Build(s, st).value;
    assert LoopTargets(st, inLoop) by { SinksTargets(st, inLoop, X); }
    if s.Block? {
      assert Sinks(st, inLoop && s.role.InOrder?, X);
      BuildAllWent(s.children, st, inLoop && s.role.InOrder?, X);
    } else if IsNested(s) {
      var inner, s1, Y := ChildBuilt(s, st, inLoop, X);
      BuildWent(Child(s), inner, InLoop(s, inLoop), Y);
      NestedWent(s, st, inner, s1, inLoop, X);
    } else {
      LeafWent(s, st, inLoop, X);
    }
    BuildGrew(s, st);
    BuildKeeps(s, st, inLoop);
    if !CursorOf(st).reached {
      NoWayIn(s, CursorOf(st));
    }
    SinksKept(st, r, Built(s), inLoop, X);
  }

  lemma SinksTargets(st: State, inLoop: bool, X: set<nat>)
    requires Sinks(st, inLoop, X)
    ensures LoopTargets(st, inLoop) && Good(st)
  {
  }

  lemma {:induction false} BuildAllWent(ss: Stmts, st: State, inLoop: bool, X: set<nat>)
    requires Sinks(st, inLoop, X) && WellNestedAll(ss, inLoop) && BuildAll(ss, st).Ok?
    ensures Went(st, BuildAll(ss, st).value, FlowAll(ss, CursorOf(st)), X)
    ensures Sinks(BuildAll(ss, st).value, inLoop, X)
    decreases ss
  {
    hide Step, Reach, Build, NodesGrew, EdgesGrew, Dual, Owned, Look, IsSink, IsGuard, IsTop;
    match ss
    case Nil => SameGraphStep(st, st, X);
    case Cons(s, rest) =>
      BuildWent(s, st, inLoop, X);
      var s1 := Build(s, st).value;
      BuildAllWent(rest, s1, inLoop, X);
      BuildGrew(s, st);
      EndSame2(st, s1);
      WentThen(st, s1, BuildAll(rest, s1).value, FlowOf(s, CursorOf(st)), FlowAll(rest, CursorOf(s1)), X);
  }
}
