/** Where the builder and its report give up: the programs it rejects, the jumps it loses,
    the bodies it builds where they do not run, and the declarations it builds where they
    are not set up. */
module CfgLimits {
  import opened CfgSyntax
  import opened CfgGraph
  import opened CfgInvariant
  import opened CfgReport
  import opened CfgRuns
  import opened CfgTold
  import opened CfgHonest

  /** The report calls `n` unreachable, yet the program or a function it sets up executes it. */
  ghost predicate WronglyReported(id: NodeId, ss: Stmts, n: NodeId)
    requires WellNestedAll(ss, false) && BuildProgram(id, ss).Ok?
  {
    var g := BuildProgram(id, ss).value;
    BuildProgramKeeps(id, ss);
    n in Report(g, |g.funs|) && !NeverExecuted(ss, n)
  }

  lemma Wrongly(id: NodeId, ss: Stmts, n: NodeId, k: nat)
    requires WellNestedAll(ss, false) && BuildProgram(id, ss).Ok?
    requires n in ReportedTop(ss, false) && Executes(ss, n, k)
    ensures WronglyReported(id, ss, n)
  {
    hide BuildProgram, WellNestedAll, Report, ReportedTop, Executes;
    ProgramReport(id, ss, n);
  }

  // ----- a lost break -----

  /** `while (forever) { if (cond) plain else break }` and then a call. */
  function BreakInElse(forever: Expr, cond: Expr): Stmts {
    Cons(While(1, forever, If(3, cond, Plain(5), ElseClause(6, Break(7)))), Cons(Simple(8, Call), Nil))
  }

  lemma BreakInElseNested(forever: Expr, cond: Expr)
    ensures WellNestedAll(BreakInElse(forever, cond), false)
  {
    var ss := BreakInElse(forever, cond);
    assert WellNested(ss.head.body.alt.body, true) && WellNested(ss.head.body.cons, true);
    assert WellNested(ss.head.body, true);
    assert WellNestedAll(ss.tail, false);
  }

  lemma BreakInElseAccepted(forever: Expr, cond: Expr)
    requires ConditionNode(forever).Some? && ConditionNode(cond).Some?
    ensures AcceptedAll(BreakInElse(forever, cond), false)
  {
    var ss := BreakInElse(forever, cond);
    assert Accepted(ss.head.body, true);
    assert AcceptedAll(ss.tail, false);
  }

  /** The report is wrong about this program: the call after the loop is reported,
      yet it runs as soon as the condition fails. */
  lemma BreakInElseIsLost(forever: Expr, cond: Expr, v: NodeId -> bool)
    requires ConditionNode(forever).Some? && ConstantTrue(ConditionNode(forever).value) && ConditionNode(cond).Some?
    requires !Truth(cond, v)
    ensures var ss := BreakInElse(forever, cond);
            && WellNestedAll(ss, false) && BuildProgram(0, ss).Ok? && WronglyReported(0, ss, 8)
  {
    hide BuildProgram, WronglyReported, Executes, ReportedTop, WellNestedAll, AcceptedAll, ExecAll;
    var ss := BreakInElse(forever, cond);
    BreakInElseNested(forever, cond);
    BreakInElseAccepted(forever, cond);
    ProgramBuildsWhen(0, ss);
    LostBreakRuns(forever, cond, v);
    BreakInElseReported(forever, cond);
    Wrongly(0, ss, 8, 0);
  }

  lemma BreakInElseReported(forever: Expr, cond: Expr)
    requires ConditionNode(forever).Some? && ConstantTrue(ConditionNode(forever).value)
    ensures 8 in ReportedTop(BreakInElse(forever, cond), false)
  {
    var ss := BreakInElse(forever, cond);
    assert LostAfter(ss.head, false) by {
      assert !BreaksOut(ss.head.body);
    }
    FollowerReported(ss.head, 8, Call, Nil);
  }

  lemma LostBreakRuns(forever: Expr, cond: Expr, v: NodeId -> bool)
    requires ConditionNode(forever).Some? && ConstantTrue(ConditionNode(forever).value) && !Truth(cond, v)
    ensures Executes(BreakInElse(forever, cond), 8, 0)
  {
    var ss := BreakInElse(forever, cond);
    var loop := ss.head;
    var env: Env := (t: nat) => v;
    ConstantsAreSound(ConditionNode(forever).value, v);
    assert Truth(forever, v);
    assert Exec(loop.body, env, 1, 0).outcome == Broke;
    assert ExecLoop(loop, env, 0, 1).outcome == Normal;
    assert Exec(loop, env, 0, 1).outcome == Normal;
    var t := Exec(loop, env, 0, 1).clock;
    assert ExecAll(ss.tail, env, t, 1).trace[0] == 8;
    assert 8 in ExecList(ss, env, 0, 1).trace;
  }

  /** The same holds of every loop with a constantly true condition that some run breaks
      out of, but only from else bodies, when a recorded statement follows it. */
  lemma LoopWithoutExitIsLost(id: NodeId, loop: Stmt, n: NodeId, kind: InstructionKind, rest: Stmts)
    requires loop.While? && !EndsByGuard(loop) && CanBreak(loop.body) && !BreaksOut(loop.body)
    requires var ss := Cons(loop, Cons(Simple(n, kind), rest));
      WellNestedAll(ss, false) && BuildProgram(id, ss).Ok?
    ensures WronglyReported(id, Cons(loop, Cons(Simple(n, kind), rest)), n)
  {
    var ss := Cons(loop, Cons(Simple(n, kind), rest));
    hide BuildProgram, WronglyReported, WellNestedAll;
    ConstantsAreSound(ConditionNode(loop.cond).value, TRUE);
    FollowerReported(loop, n, kind, rest);
    FollowerRuns(loop, n, kind, rest);
    Wrongly(id, ss, n, 0);
  }

  lemma FollowerReported(s: Stmt, n: NodeId, kind: InstructionKind, rest: Stmts)
    requires LostAfterTop(s, false)
    ensures n in ReportedTop(Cons(s, Cons(Simple(n, kind), rest)), false)
  {
    assert n in ReportedTop(Cons(Simple(n, kind), rest), true);
  }

  lemma FollowerRuns(s: Stmt, n: NodeId, kind: InstructionKind, rest: Stmts)
    requires CanEnd(s)
    ensures Executes(Cons(s, Cons(Simple(n, kind), rest)), n, 0)
  {
    var ss := Cons(s, Cons(Simple(n, kind), rest));
    assert n in RunsAll(ss.tail);
    RunsExactly(ss, n);
  }

  // ----- bodies built where they do not run -----

  /** A top-level declaration whose body ends in a return, or loses the way otherwise,
      makes the report wrong about the statement behind it. */
  lemma ReturningDeclarationIsLost(id: NodeId, f: Stmt, n: NodeId, kind: InstructionKind, rest: Stmts)
    requires Revisited(f) && LostAfter(f.body, false)
    requires var ss := Cons(f, Cons(Simple(n, kind), rest)); WellNestedAll(ss, false) && BuildProgram(id, ss).Ok?
    ensures WronglyReported(id, Cons(f, Cons(Simple(n, kind), rest)), n)
  {
    BodyIsLost(id, f, n, kind, rest);
  }

  /** So does a function expression. */
  lemma ReturningExpressionIsLost(id: NodeId, f: Stmt, n: NodeId, kind: InstructionKind, rest: Stmts)
    requires f.Block? && !f.role.InOrder? && LostAfterAll(f.children, false)
    requires var ss := Cons(f, Cons(Simple(n, kind), rest)); WellNestedAll(ss, false) && BuildProgram(id, ss).Ok?
    ensures WronglyReported(id, Cons(f, Cons(Simple(n, kind), rest)), n)
  {
    BodyIsLost(id, f, n, kind, rest);
  }

  lemma BodyIsLost(id: NodeId, f: Stmt, n: NodeId, kind: InstructionKind, rest: Stmts)
    requires LostAfterTop(f, false) && CanEnd(f)
    requires var ss := Cons(f, Cons(Simple(n, kind), rest)); WellNestedAll(ss, false) && BuildProgram(id, ss).Ok?
    ensures WronglyReported(id, Cons(f, Cons(Simple(n, kind), rest)), n)
  {
    hide BuildProgram, WronglyReported, WellNestedAll, LostAfterTop, CanEnd;
    FollowerReported(f, n, kind, rest);
    FollowerRuns(f, n, kind, rest);
    Wrongly(id, Cons(f, Cons(Simple(n, kind), rest)), n, 0);
  }

  /** `function f() { return }` and then a call. */
  function DeclarationThenCall(): Stmts {
    Cons(Function(1, true, Block(2, InOrder, Cons(Return(3), Nil))), Cons(Simple(4, Call), Nil))
  }

  lemma DeclarationThenCallShape()
    ensures var ss := DeclarationThenCall();
      && UniqueIdsAll(ss) && WellNestedAll(ss, false) && TraceableAll(ss, false) && HoistsFound(ss, false)
      && AcceptedAll(ss, false)
  {
    var ss := DeclarationThenCall();
    var body := ss.head.body.children;
    assert WellNestedAll(body, false) && TraceableAll(body, false) && AcceptedAll(body, false);
    assert HoistsFound(body, false) && HoistsFound(ss.tail, false);
    assert WellNestedAll(ss.tail, false) && TraceableAll(ss.tail, false) && AcceptedAll(ss.tail, false);
    assert UniqueIdsAll(body) && UniqueIdsAll(ss.tail);
    assert IdsAll(body) == {3} && Ids(ss.head.body) == {2, 3} && Ids(ss.head) == {1, 2, 3} && IdsAll(ss.tail) == {4};
  }

  /** All but the last hypothesis of TraceableIsNeverExecuted hold, and the call is
      reported wrongly. */
  lemma CallIsLost()
    ensures var ss := DeclarationThenCall();
            && UniqueIdsAll(ss) && WellNestedAll(ss, false) && BuildProgram(0, ss).Ok?
            && TraceableAll(ss, false) && HoistsFound(ss, false) && !DeclarationsPass(ss) && WronglyReported(0, ss, 4)
  {
    hide BuildProgram, WronglyReported;
    var ss := DeclarationThenCall();
    DeclarationThenCallShape();
    ProgramBuildsWhen(0, ss);
    assert LostAfterAll(ss.head.body.children, false);
    ReturningDeclarationIsLost(0, ss.head, 4, Call, Nil);
  }

  // ----- declarations behind a jump -----

  /** Declaration `f` stands in the list where the builder has lost the way. */
  predicate LostDeclaration(ss: Stmts, lost: bool, f: Stmt) {
    match ss
    case Nil => false
    case Cons(s, rest) => (s == f && Hoists(f) && lost) || LostDeclaration(rest, LostAfter(s, lost), f)
  }

  lemma {:induction false} LostIsReported(ss: Stmts, lost: bool, f: Stmt)
    requires LostDeclaration(ss, lost, f)
    ensures ReportedBy(f, true) <= ReportedByAll(ss, lost) && f.id in Hoisted(ss)
    ensures Hoists(f) && HasFunctionAll(ss, f)
  {
    match ss
    case Cons(s, rest) =>
      if !(s == f && Hoists(f) && lost) {
        LostIsReported(rest, LostAfter(s, lost), f);
      }
  }

  /** A declaration is set up when the function it stands in is entered, so it can be
      called from in front of the jump.  Where the builder has lost the way to it, the
      report is wrong about every node that it reports there and that a call executes:
      always the declaration's own, and for a generator the statements inside. */
  lemma HoistedDeclarationIsLost(id: NodeId, outer: Stmt, f: Stmt, n: NodeId, rest: Stmts)
    requires Revisited(outer) && outer.body.Block? && outer.body.role.InOrder?
    requires LostDeclaration(outer.body.children, false, f) && n in ReportedBy(f, true) * Does(f)
    requires var ss := Cons(outer, rest); WellNestedAll(ss, false) && BuildProgram(id, ss).Ok?
    ensures WronglyReported(id, Cons(outer, rest), n)
  {
    hide BuildProgram, WronglyReported, WellNestedAll, Executes, LostDeclaration, LostAfterTop, Does;
    LostIsReported(outer.body.children, false, f);
    assert n in ReportedBy(outer.body, false);
    InnerRuns(outer, f, rest);
    assert HasFunction(outer.body, f);
    IsFirst(outer, f, rest);
    var k := SetUpDoes(Cons(outer, rest), f, n, 1);
    Wrongly(id, Cons(outer, rest), n, k);
  }

  /** What is declared in a declaration's body is set up by calling it. */
  lemma IsFirst(outer: Stmt, f: Stmt, rest: Stmts)
    requires outer.Function? && HasFunction(outer.body, f)
    ensures HasFunctionAll(Cons(outer, rest), f)
  {
    assert HasFunction(outer, f);
  }

  lemma InnerRuns(outer: Stmt, f: Stmt, rest: Stmts)
    requires Revisited(outer) && outer.body.Block? && outer.body.role.InOrder? && f.id in Hoisted(outer.body.children)
    ensures Executes(Cons(outer, rest), f.id, 1)
  {
    var ss, env: Env := Cons(outer, rest), _ => TRUE;
    assert outer.id in Hoisted(ss);
    RunsExactly(ss, outer.id);
    assert HasFunctionAll(ss, outer);
    assert f.id in ExecList(outer.body.children, env, 0, 0).trace;
    assert f.id in ExecBody(outer, env, 0, 0).trace;
  }

  lemma SetUpDoes(ss: Stmts, f: Stmt, n: NodeId, k: nat) returns (more: nat)
    requires HasFunctionAll(ss, f) && Hoists(f) && Executes(ss, f.id, k) && n in Does(f)
    ensures Executes(ss, n, more)
  {
    hide Executes;
    more := k;
    if n != f.id {
      more := BodyDone(ss, f, n, k);
    }
  }

  /** At the top of a program as well. */
  lemma TopDeclarationIsLost(id: NodeId, s: Stmt, f: Stmt, n: NodeId, rest: Stmts)
    requires LostAfterTop(s, false) && Hoists(f) && n in ReportedBy(f, true) * Does(f)
    requires var ss := Cons(s, Cons(f, rest)); WellNestedAll(ss, false) && BuildProgram(id, ss).Ok?
    ensures WronglyReported(id, Cons(s, Cons(f, rest)), n)
  {
    hide BuildProgram, WronglyReported, WellNestedAll, LostAfterTop, Does, Executes;
    var ss := Cons(s, Cons(f, rest));
    assert n in ReportedTop(ss.tail, true);
    assert HasFunction(f, f) && HasFunctionAll(ss.tail, f) && HasFunctionAll(ss, f);
    TopRuns(ss, f.id);
    var k := SetUpDoes(ss, f, n, 0);
    Wrongly(id, ss, n, k);
  }

  lemma TopRuns(ss: Stmts, n: NodeId)
    requires n in Hoisted(ss)
    ensures Executes(ss, n, 0)
  {
    RunsExactly(ss, n);
  }

  /** `function outer() { return helper(); function helper() { g() } }` and then a call. */
  function HelperBehindReturn(): Stmts {
    Cons(Outer(Helper()), Cons(Simple(7, Call), Nil))
  }

  function Outer(helper: Stmt): Stmt {
    Function(1, true, Block(2, InOrder, Cons(Return(3), Cons(helper, Nil))))
  }

  function Helper(): Stmt {
    Function(4, true, Block(5, InOrder, Cons(Simple(6, Call), Nil)))
  }

  lemma HelperShape()
    ensures var f := Helper();
      && UniqueIds(f) && Ids(f) == {4, 5, 6} && WellNested(f, false) && Accepted(f, false)
      && Revisited(f) && Does(f) == {4, 5, 6} && !LostAfter(f, true) && 4 in ReportedBy(f, true)
  {
    var inner := Helper().body.children;
    assert UniqueIdsAll(inner) && IdsAll(inner) == {6} && WellNestedAll(inner, false) && AcceptedAll(inner, false);
    assert DoesAll(inner, true) == {6};
  }

  lemma HelperBehindReturnIds()
    ensures UniqueIdsAll(HelperBehindReturn())
  {
    hide Helper, Outer;
    HelperShape();
    OuterIds(Helper());
    var ss := HelperBehindReturn();
    assert UniqueIdsAll(ss.tail) && IdsAll(ss.tail) == {7};
  }

  lemma OuterIds(f: Stmt)
    requires UniqueIds(f) && Ids(f) == {4, 5, 6}
    ensures UniqueIds(Outer(f)) && Ids(Outer(f)) == {1, 2, 3, 4, 5, 6}
  {
    var more := Cons(f, Nil);
    var body := Cons(Return(3), more);
    assert UniqueIdsAll(more.tail) && IdsAll(more.tail) == {};
    assert UniqueIdsAll(more) && IdsAll(more) == {4, 5, 6};
    assert Ids(body.head) == {3} && IdsAll(body) == Ids(body.head) + IdsAll(more);
    assert UniqueIdsAll(body) && IdsAll(body) == {3, 4, 5, 6};
  }

  lemma HelperBehindReturnShape()
    ensures var ss := HelperBehindReturn(); WellNestedAll(ss, false) && AcceptedAll(ss, false)
  {
    hide Helper, Outer, WellNestedAll, AcceptedAll;
    HelperShape();
    OuterShape(Helper());
    ListShape(Outer(Helper()), Simple(7, Call));
  }

  lemma ListShape(s: Stmt, t: Stmt)
    requires WellNested(s, false) && Accepted(s, false) && WellNested(t, false) && Accepted(t, false)
    ensures var ss := Cons(s, Cons(t, Nil)); WellNestedAll(ss, false) && AcceptedAll(ss, false)
  {
    var more := Cons(t, Nil);
    assert WellNestedAll(more, false) && AcceptedAll(more, false);
  }

  lemma OuterShape(f: Stmt)
    requires WellNested(f, false) && Accepted(f, false)
    ensures WellNested(Outer(f), false) && Accepted(Outer(f), false)
  {
    ListShape(Return(3), f);
  }

  lemma HelperBehindReturnRuns()
    ensures var ss := HelperBehindReturn();
      && DeclarationsPass(ss) && LostDeclaration(ss.head.body.children, false, Helper())
      && 4 in ReportedBy(Helper(), true) * Does(Helper()) && 6 in DoesAll(ss, true)
  {
    hide Helper, ReportedBy;
    HelperShape();
    OuterRunsHelper(Helper());
  }

  lemma OuterRunsHelper(f: Stmt)
    requires Revisited(f) && Does(f) == {4, 5, 6} && !LostAfter(f, true)
    ensures var body := Cons(Return(3), Cons(f, Nil));
      LostDeclaration(body, false, f) && !LostAfterAll(body, false) && 6 in DoesAll(body, true)
  {
    var body := Cons(Return(3), Cons(f, Nil));
    assert LostDeclaration(body.tail, true, f) && !LostAfterAll(body.tail, true) && 6 in DoesAll(body.tail, false);
  }

  /** No declaration loses the way, and yet the helper is reported; its body runs. */
  lemma HelperIsLost()
    ensures var ss := HelperBehindReturn();
            && UniqueIdsAll(ss) && WellNestedAll(ss, false) && BuildProgram(0, ss).Ok? && DeclarationsPass(ss)
            && WronglyReported(0, ss, 4) && !NeverExecuted(ss, 6) && !HonestProgram(ss)
  {
    hide BuildProgram, WronglyReported, NeverExecuted, WellNestedAll, UniqueIdsAll, AcceptedAll, DoesAll, HonestTop,
        LostDeclaration;
    var ss := HelperBehindReturn();
    HelperBehindReturnIds();
    HelperBehindReturnShape();
    HelperBehindReturnRuns();
    ProgramBuildsWhen(0, ss);
    HoistedDeclarationIsLost(0, ss.head, Helper(), 4, ss.tail);
    ExecutedExactly(ss, 6);
    WronglyIsDishonest(0, ss, 4);
  }

  lemma WronglyIsDishonest(id: NodeId, ss: Stmts, n: NodeId)
    requires UniqueIdsAll(ss) && WellNestedAll(ss, false) && BuildProgram(id, ss).Ok? && WronglyReported(id, ss, n)
    ensures !HonestProgram(ss)
  {
    hide BuildProgram, NeverExecuted, Report, HonestTop, WellNestedAll, UniqueIdsAll;
    UnreachableIsNeverExecuted(id, ss);
  }

  // ----- which programs are built -----

  /** Every condition the builder looks at has a node, and every jump it looks at has
      a loop around it, be it outside the function it stands in: the stacks are not
      put aside for a nested function.  Else bodies are never looked at. */
  predicate Accepted(s: Stmt, inLoop: bool) {
    match s
    case Block(_, _, children) => AcceptedAll(children, inLoop)
    case If(_, cond, cons, _) => HasNode(cond) && Accepted(cons, inLoop)
    case While(_, cond, body) => HasNode(cond) && Accepted(body, true)
    case ForIn(_, _, body) => Accepted(body, true)
    case Function(_, _, body) => Accepted(body, inLoop)
    case Break(_) => inLoop
    case Continue(_) => inLoop
    case _ => true
  }

  /** A condition has a node: it is not parentheses around parentheses, nor around an
      array, an object or any other node made of children. */
  predicate HasNode(cond: Expr) {
    cond.Paren? ==> cond.inner.BoolLit? || cond.inner.Binary? || cond.inner.Opaque?
  }

  predicate AcceptedAll(ss: Stmts, inLoop: bool) {
    match ss
    case Nil => true
    case Cons(s, rest) => Accepted(s, inLoop) && AcceptedAll(rest, inLoop)
  }

  predicate InSomeLoop(st: State, inLoop: bool) {
    (st.brk != [] <==> inLoop) && (st.cont != [] <==> inLoop)
  }

  lemma EntersWhen(s: Stmt, st: State, inLoop: bool)
    requires Wf(st) && IsNested(s) && InSomeLoop(st, inLoop)
    ensures Enter(s, st).Ok? <==> (s.If? || s.While? ==> HasNode(s.cond))
    ensures Enter(s, st).Ok? ==> InSomeLoop(Enter(s, st).value, inLoop || IsLoop(s))
  {
    hide Wf, EnterIf, EnterWhile, EnterForIn, ForInBase, BeginFunction, AddInstruction;
  }

  lemma {:induction false} BuildsWhen(s: Stmt, st: State, inLoop: bool)
    requires Wf(st) && InSomeLoop(st, inLoop)
    ensures Build(s, st).Ok? <==> Accepted(s, inLoop)
    decreases s
  {
    hide Wf, Enter, Leave, BuildJump, BuildReturn, AddInstruction;
    if s.Block? {
      BuildsAllWhen(s.children, st, inLoop);
    } else if IsNested(s) {
      EntersWhen(s, st, inLoop);
      if Enter(s, st).Ok? {
        BuildsWhen(Child(s), Enter(s, st).value, inLoop || IsLoop(s));
      }
    }
  }

  lemma {:induction false} BuildsAllWhen(ss: Stmts, st: State, inLoop: bool)
    requires Wf(st) && InSomeLoop(st, inLoop)
    ensures BuildAll(ss, st).Ok? <==> AcceptedAll(ss, inLoop)
    decreases ss
  {
    hide Wf, Build;
    if ss.Cons? {
      BuildsWhen(ss.head, st, inLoop);
      if Build(ss.head, st).Ok? {
        BuildsAllWhen(ss.tail, Build(ss.head, st).value, inLoop);
      }
    }
  }

  /** A program gets a graph if and only if it is accepted. */
  lemma ProgramBuildsWhen(id: NodeId, ss: Stmts)
    ensures BuildProgram(id, ss).Ok? <==> AcceptedAll(ss, false)
  {
    hide Wf, BuildAll;
    ExpandedAccepted(ss);
    BuildsAllWhen(Expanded(ss), BeginFunction(EMPTY, id), false);
  }

  /** The second build of a body is accepted if the first was. */
  lemma {:induction false} ExpandedAccepted(ss: Stmts)
    ensures AcceptedAll(Expanded(ss), false) <==> AcceptedAll(ss, false)
  {
    match ss
    case Nil =>
    case Cons(s, rest) =>
      ExpandedAccepted(rest);
      if Revisited(s) {
        assert AcceptedAll(Cons(s.body, Expanded(rest)), false) <==>
               Accepted(s.body, false) && AcceptedAll(Expanded(rest), false);
      }
  }
}
