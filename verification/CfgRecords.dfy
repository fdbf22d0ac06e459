/** The functions of a finished graph, one by one and in their order, with the complexity
    that their paths have. */
module CfgRecords {
  import opened CfgSyntax
  import opened CfgGraph
  import opened CfgGrowth
  import opened CfgInvariant
  import opened CfgTold
  import opened CfgTelling
  import opened CfgFlow
  import opened CfgReach
  import opened CfgEntering
  import opened CfgReaching

  /** Function `k` of the graph is this record. */
  ghost predicate IsRecord(g: State, k: nat, record: Record) {
    k < |g.funs| && g.funs[k].node == record.node && Weight(g, k, {}) + 2 == record.complexity
  }

  /** From `st` to `r` these functions were added. */
  ghost predicate Filed(st: State, r: State, records: seq<Record>) {
    |r.funs| == |st.funs| + |records| && forall i: nat :: i < |records| ==> IsRecord(r, |st.funs| + i, records[i])
  }

  /** Later steps of the builder leave the record alone. */
  lemma RecordKept(s1: State, r: State, k: nat, record: Record)
    requires Wf(s1) && IsRecord(s1, k, record) && FunsKept(s1, r)
    requires Weight(r, k, {}) == Weight(s1, k, {})
    ensures IsRecord(r, k, record)
  {
    hide Weight;
    assert SameFun(s1.funs[k], r.funs[k]);
  }

  lemma FiledKept(st: State, s1: State, r: State, records: seq<Record>)
    requires Wf(st) && Wf(s1) && Filed(st, s1, records) && FunsKept(s1, r) && |r.funs| == |s1.funs|
    requires Others(s1, r) && CurrentFun(s1) < |st.funs|
    ensures Filed(st, r, records)
  {
    hide Weight, FunsKept;
    forall i: nat | i < |records|
      ensures IsRecord(r, |st.funs| + i, records[i])
    {
      RecordKept(s1, r, |st.funs| + i, records[i]);
    }
  }

  lemma FiledThen(st: State, s1: State, r: State, a: seq<Record>, b: seq<Record>)
    requires Wf(st) && Wf(s1) && Filed(st, s1, a) && Filed(s1, r, b) && FunsKept(s1, r)
    requires Others(s1, r) && CurrentFun(s1) < |st.funs|
    ensures Filed(st, r, a + b)
  {
    hide Weight, FunsKept;
    forall i: nat | i < |a + b|
      ensures IsRecord(r, |st.funs| + i, (a + b)[i])
    {
      if i < |a| {
        RecordKept(s1, r, |st.funs| + i, a[i]);
      } else {
        assert IsRecord(r, |s1.funs| + (i - |a|), b[i - |a|]);
      }
    }
  }

  // ----- a function's own record -----

  /** The weight of a function whose end is excepted no longer. */
  lemma EndCounts(inner: State, s1: State, end: nat, flow: Flow)
    requires Good(inner) && Wf(s1) && Went(inner, s1, flow, {end}) && s1.stack == inner.stack
    requires EndOf(s1) == end && Look(s1, end) == Fresh(flow.leaves)
    requires Own(inner, CurrentFun(inner)) == {inner.current} && inner.current != end && CursorOf(inner) == START
    ensures Weight(s1, CurrentFun(inner), {}) == flow.edges - 1 - Count(flow.leaves)
  {
    hide Reach, Missed, Others, Dual, Owned, Own, Weight;
    var k := CurrentFun(inner);
    WeightExcept(s1, k, {}, end);
    assert {} + {end} == {end};
    assert end in Own(s1, k) <==> flow.leaves by {
      OwnLook(s1, end);
    }
    StartWeight(inner, k, end);
  }

  lemma OwnLook(st: State, b: nat)
    requires Wf(st) && b < |st.blocks| && Look(st, b).mine
    ensures b in Own(st, CurrentFun(st)) <==> Look(st, b).reached
  {
    hide Reach;
  }

  lemma StartWeight(st: State, k: nat, end: nat)
    requires Wf(st) && Own(st, k) == {st.current} && CursorOf(st).open && end != st.current
    ensures Weight(st, k, {end}) == -1
  {
    hide Own;
    ExcessWith(st.blocks, {}, st.current, |st.blocks|);
    ExcessOfNone(st.blocks, |st.blocks|);
    assert {} + {st.current} == {st.current};
    assert {st.current} * {end} == {};
  }

  lemma {:induction false} ExcessOfNone(bs: seq<Vertex>, n: nat)
    requires n <= |bs|
    ensures Excess(bs, {}, n) == 0
  {
    if n != 0 {
      ExcessOfNone(bs, n - 1);
    }
  }

  lemma FunctionFiled(s: Stmt, st: State, outer: State, inner: State, s1: State, X: set<nat>, m: set<NodeId>,
      flow: Flow)
    requires s.Function? && FunctionBegun(st, outer, inner, s.id, X) && Grows(inner, s1) && Keeps(inner, s1)
    requires Grew(|inner.blocks|, inner.current, m, inner, s1) && !flow.breaks
    requires Went(inner, s1, flow, {|outer.blocks| + 1}) && inner.funs[|outer.funs|].node == s.id
    requires |st.funs| == |outer.funs| && Filed(inner, s1, Records(s.body))
    ensures outer.current < |s1.blocks| && |s1.stack| >= 2
    ensures Filed(st, LeaveFunction(s1, outer.current), [Record(s.id, Cyclomatic(flow))] + Records(s.body))
  {
    hide Step, Reach, Dual, Owned, NodesGrew, Quiet, Weight, Missed, Own, LeaveFunction;
    FunctionBuilt(st, outer, inner, s1, s.id, X, m, flow);
    LeaveFunctionStep(s1, outer.current);
    EndCounts(inner, s1, |outer.blocks| + 1, flow);
    var r, own, k := LeaveFunction(s1, outer.current), Record(s.id, Cyclomatic(flow)), |outer.funs|;
    LeaveKeepsFuns(s1, outer.current);
    assert SameFun(inner.funs[k], s1.funs[k]) && SameFun(s1.funs[k], r.funs[k]);
    OwnThenBody(inner, s1, r, own, Records(s.body));
  }

  /** A function's own record, and those of the functions in its body. */
  lemma OwnThenBody(inner: State, s1: State, r: State, own: Record, records: seq<Record>)
    requires Wf(s1) && |inner.funs| > 0 && IsRecord(r, |inner.funs| - 1, own) && Filed(inner, s1, records)
    requires FunsKept(s1, r)
    requires forall j: nat, Y: set<nat> {:trigger Weight(r, j, Y)} ::
               j < |s1.funs| && j != |inner.funs| - 1 ==> Weight(r, j, Y) == Weight(s1, j, Y)
    ensures forall i: nat :: i < |[own] + records| ==> IsRecord(r, |inner.funs| - 1 + i, ([own] + records)[i])
  {
    hide Weight, FunsKept;
    var k := |inner.funs| - 1;
    forall i: nat | i < |[own] + records|
      ensures IsRecord(r, k + i, ([own] + records)[i])
    {
      if i > 0 {
        assert IsRecord(s1, |inner.funs| + (i - 1), records[i - 1]);
        RecordKept(s1, r, k + i, records[i - 1]);
      }
    }
  }

  lemma LeaveKeepsFuns(s1: State, back: nat)
    requires Wf(s1) && |s1.stack| >= 2 && back < |s1.blocks|
    ensures FunsKept(s1, LeaveFunction(s1, back))
  {
  }

  // ----- any statement -----

  lemma NestedFiled(s: Stmt, st: State, inner: State, s1: State, inLoop: bool, X: set<nat>)
    requires IsNested(s) && !s.Function? && Sinks(st, inLoop, X) && WellNested(s, inLoop)
    requires ChildWent(s, st, inner, s1, Excepted(s, st, X), FlowOf(Child(s), InnerCursor(s, CursorOf(st))))
    requires CursorOf(inner) == InnerCursor(s, CursorOf(st)) && Filed(inner, s1, Records(Child(s)))
    ensures Filed(st, Leave(s, st, s1), Records(s))
  {
    hide Step, Reach, Dual, Owned, EnterIf, EnterWhile, EnterForIn, ForInBase, LeaveIf, LeaveLoop, Grew, IsSink,
        IsGuard, Went, IsRecord, Others, FunsKept, Later;
    NestedWent(s, st, inner, s1, inLoop, X);
    assert FunsKept(s1, Leave(s, st, s1)) by { LeaveKept(s, st, inner, s1); }
    assert Filed(st, s1, Records(s));
    FiledKept(st, s1, Leave(s, st, s1), Records(s));
  }

  lemma LeaveKept(s: Stmt, st: State, inner: State, s1: State)
    requires IsNested(s) && Good(st) && Enter(s, st) == Ok(inner) && Grows(inner, s1)
    requires Grew(|inner.blocks|, inner.current, Built(Child(s)), inner, s1)
    ensures FunsKept(s1, Leave(s, st, s1))
  {
    hide Leave, Enter, Dual, Owned, NodesGrew;
    EnterGrew(s, st);
    LeaveGrew(s, st, s1);
  }

  /** Building a well-nested statement adds exactly these functions. */
  lemma {:induction false} BuildFiled(s: Stmt, st: State, inLoop: bool, X: set<nat>)
    requires Sinks(st, inLoop, X) && WellNested(s, inLoop) && Build(s, st).Ok?
    ensures Filed(st, Build(s, st).value, Records(s))
    decreases s
  {
    hide Step, Reach, Enter, Leave, BuildJump, BuildReturn, AddInstruction, Grew, Dual, Owned, Look, Excepted,
        IsRecord, Keeps;
    if s.Block? {
      assert Sinks(st, inLoop && s.role.InOrder?, X);
      BuildAllFiled(s.children, st, inLoop && s.role.InOrder?, X);
    } else if IsNested(s) {
      var inner, s1, Y := ChildBuilt(s, st, inLoop, X);
      BuildWent(Child(s), inner, InLoop(s, inLoop), Y);
      BuildFiled(Child(s), inner, InLoop(s, inLoop), Y);
      if s.Function? {
        BodyFiled(s, st, inner, s1, X);
      } else {
        NestedFiled(s, st, inner, s1, inLoop, X);
      }
    }
  }

  lemma BodyFiled(s: Stmt, st: State, inner: State, s1: State, X: set<nat>)
    requires s.Function? && WellNested(s.body, false) && Filed(inner, s1, Records(s.body))
    requires Good(st) && ChildWent(s, st, inner, s1, Excepted(s, st, X), FlowOf(s.body, START))
    ensures Filed(st, Leave(s, st, s1), Records(s))
  {
    hide Step, Reach, Dual, Owned, Keeps, Grew, FunctionBegun, LeaveFunction, AddInstruction, Went, IsRecord;
    NestedNoBreak(s.body, START);
    EnterFunction(s, st, X);
    FunctionFiled(s, st, AddInstruction(st, Assign, s.id), inner, s1, X, Built(s.body), FlowOf(s.body, START));
  }

  lemma {:induction false} BuildAllFiled(ss: Stmts, st: State, inLoop: bool, X: set<nat>)
    requires Sinks(st, inLoop, X) && WellNestedAll(ss, inLoop) && BuildAll(ss, st).Ok?
    ensures Filed(st, BuildAll(ss, st).value, RecordsAll(ss))
    decreases ss
  {
    hide Step, Reach, Build, NodesGrew, Dual, Owned, Look, IsSink, IsGuard, IsTop, IsRecord;
    match ss
    case Nil =>
    case Cons(s, rest) =>
      BuildWent(s, st, inLoop, X);
      BuildFiled(s, st, inLoop, X);
      var s1 := Build(s, st).value;
      var r := BuildAll(rest, s1).value;
      BuildAllWent(rest, s1, inLoop, X);
      BuildAllFiled(rest, s1, inLoop, X);
      BuildAllGrew(rest, s1);
      var flow := FlowAll(rest, CursorOf(s1));
      WentStep(s1, r, flow, X);
      StepOthers(s1, r, flow.missed, X, flow.edges);
      FiledThen(st, s1, r, Records(s), RecordsAll(rest));
  }

  // ----- programs -----

  /** The functions of a program: itself, and all that it builds.  Those written in its
      declarations come twice. */
  function ProgramRecords(id: NodeId, ss: Stmts): seq<Record> {
    [Record(id, Cyclomatic(FlowAll(Expanded(ss), START)))] + RecordsAll(Expanded(ss))
  }

  lemma ProgramStart(id: NodeId)
    ensures var st := BeginFunction(EMPTY, id);
      && Sinks(st, false, {1}) && CursorOf(st) == START && Own(st, 0) == {0} && Missed(st) == {} && EndOf(st) == 1
      && st.current == 0 && st.stack == [0] && st.brk == [] && |st.funs| == 1 && st.funs[0].node == id
  {
    hide Reach, Dual, Owned, Own;
    BeginFunctionKeeps(EMPTY, id);
    BeginFunctionStep(EMPTY, id);
    NothingMissed();
  }

  lemma NothingMissed()
    ensures Missed(EMPTY) == {}
  {
  }

  lemma CurrentSink(st: State, end: nat)
    requires Sinks(st, false, {end}) && EndOf(st) == end
    ensures Look(st, st.current).mine && st.current != end && Look(st, end) == Fresh(Look(st, end).reached)
  {
  }

  /** The program's own function, once the edge to its end is there. */
  lemma ProgramClosed(st: State, s1: State, flow: Flow)
    requires Sinks(st, false, {1}) && CursorOf(st) == START && Own(st, 0) == {0} && Missed(st) == {} && EndOf(st) == 1
    requires st.current == 0 && st.stack == [0] && st.brk == [] && Went(st, s1, flow, {1})
    requires Sinks(s1, false, {1}) && s1.stack == [0]
    requires EndOf(s1) == 1
    ensures var g := AddEdge(s1, s1.current, 1);
      && Missed(g) == flow.missed && Weight(g, 0, {}) + 2 == Cyclomatic(flow) && Others(s1, g)
  {
    hide Reach, Missed, Dual, Owned, Own, Weight, AddEdge, IsSink;
    CurrentSink(s1, 1);
    CloseFunctionStep(s1);
    WentReach(st, s1, flow, {1}, 1);
    EndNotYet(st);
    ReachedLook(s1, 1);
    EndCounts(st, s1, 1, flow);
    assert CurrentFun(s1) == 0;
  }

  lemma EndNotYet(st: State)
    requires Sinks(st, false, {1}) && EndOf(st) == 1 && Own(st, 0) == {0} && st.stack == [0]
    ensures 1 < |st.blocks| && 1 !in Reach(st)
  {
    OwnLook(st, 1);
    hide Reach, Own;
  }

  lemma ProgramFiled(st: State, s1: State, g: State, own: Record, records: seq<Record>)
    requires Wf(st) && Wf(s1) && |st.funs| == 1 && st.funs[0].node == own.node && Filed(st, s1, records)
    requires FunsKept(st, s1) && FunsKept(s1, g) && |g.funs| == |s1.funs| && Others(s1, g) && CurrentFun(s1) == 0
    requires Weight(g, 0, {}) + 2 == own.complexity
    ensures |g.funs| == |[own] + records|
    ensures forall k: nat :: k < |[own] + records| ==> IsRecord(g, k, ([own] + records)[k])
  {
    hide Weight;
    FiledKept(st, s1, g, records);
    assert SameFun(st.funs[0], s1.funs[0]) && SameFun(s1.funs[0], g.funs[0]);
    forall k: nat | k < |[own] + records|
      ensures IsRecord(g, k, ([own] + records)[k])
    {
      if k > 0 {
        assert IsRecord(g, |st.funs| + (k - 1), records[k - 1]);
      }
    }
  }

  lemma RecordsFound(g: State, records: seq<Record>)
    requires Good(g) && |g.funs| == |records| && forall k: nat :: k < |records| ==> IsRecord(g, k, records[k])
    ensures forall k: nat :: k < |records| ==> HasRecord(g, k, records[k])
  {
    forall k: nat | k < |records|
      ensures HasRecord(g, k, records[k])
    {
      assert IsRecord(g, k, records[k]);
      OwnIsReachable(g, k);
    }
  }

  /** Function `k` of the graph has the record's node and its complexity. */
  ghost predicate HasRecord(g: State, k: nat, record: Record) {
    k < |g.funs| && g.funs[k].node == record.node && Complexity(g, Reachable(g, g.funs[k].start)) == record.complexity
  }

  /** The functions of a program's graph, in order, with their complexities, and the nodes
      that are recorded in blocks no path leads to. */
  lemma ProgramPaths(id: NodeId, ss: Stmts)
    requires WellNestedAll(ss, false) && BuildProgram(id, ss).Ok?
    ensures var g, records := BuildProgram(id, ss).value, ProgramRecords(id, ss);
      && Missed(g) == FlowAll(Expanded(ss), START).missed
      && |g.funs| == |records| && forall k: nat :: k < |records| ==> HasRecord(g, k, records[k])
  {
    hide BuildAll, Reach, Missed, Dual, Owned, Wf, Went, Filed, BeginFunction, AddEdge, CursorOf, OfCurrentFun,
        IsSink, NodesGrew, Weight, IsRecord, HasRecord, FunsKept, Others, Cyclomatic;
    BuildProgramKeeps(id, ss);
    var st, flow := BeginFunction(EMPTY, id), FlowAll(Expanded(ss), START);
    ProgramStart(id);
    ExpandedNested(ss);
    BuildAllWent(Expanded(ss), st, false, {1});
    BuildAllFiled(Expanded(ss), st, false, {1});
    var s1 := BuildAll(Expanded(ss), st).value;
    BuildAllGrew(Expanded(ss), st);
    EndSame2(st, s1);
    ProgramClosed(st, s1, flow);
    InBlocks(s1);
    var g := AddEdge(s1, s1.current, 1);
    assert FunsKept(s1, g) by { EdgeKept(s1, s1.current, 1); }
    ProgramFiled(st, s1, g, Record(id, Cyclomatic(flow)), RecordsAll(Expanded(ss)));
    RecordsFound(g, ProgramRecords(id, ss));
  }

  lemma EdgeKept(st: State, a: nat, b: nat)
    requires Wf(st) && a < |st.blocks| && b < |st.blocks|
    ensures FunsKept(st, AddEdge(st, a, b))
  {
  }
}
