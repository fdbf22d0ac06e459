/** The cyclomatic complexity the builder's graph yields, for every function of a program,
    and when it is McCabe's count: one more than the number of decisions. */
module CfgComplexity {
  import opened CfgSyntax
  import opened CfgGraph
  import opened CfgInvariant
  import opened CfgFlow
  import opened CfgReach
  import opened CfgRecords

  // ----- the statements that are counted -----

  /** The statement jumps: what stands behind it is dead. */
  predicate Jumps(s: Stmt) {
    match s
    case Block(_, _, children) => JumpsAll(children)
    case Break(_) => true
    case Continue(_) => true
    case Return(_) => true
    case _ => false
  }

  predicate JumpsAll(ss: Stmts) {
    match ss
    case Nil => false
    case Cons(s, rest) => Jumps(s) || JumpsAll(rest)
  }

  /** The first jump is a return. */
  predicate Returns(s: Stmt) {
    match s
    case Block(_, _, children) => ReturnsAll(children)
    case Return(_) => true
    case _ => false
  }

  predicate ReturnsAll(ss: Stmts) {
    match ss
    case Nil => false
    case Cons(s, rest) => if Jumps(s) then Returns(s) else ReturnsAll(rest)
  }

  predicate Undecided(cond: Expr) {
    var impl := ConditionNode(cond);
    impl.Some? && !ConstantTrue(impl.value) && !ConstantFalse(impl.value)
  }

  /** No constant condition, and nothing behind a `break` or a `continue`.  Dead code
      may follow a return.  Functions inside are counted on their own. */
  predicate Tidy(s: Stmt) {
    match s
    case Block(_, _, children) => TidyAll(children)
    case If(_, cond, cons, _) => Undecided(cond) && Tidy(cons)
    case While(_, cond, body) => Undecided(cond) && Tidy(body)
    case ForIn(_, _, body) => Tidy(body)
    case _ => true
  }

  predicate TidyAll(ss: Stmts) {
    match ss
    case Nil => true
    case Cons(s, rest) => Tidy(s) && if Jumps(s) then Returns(s) || rest.Nil? else TidyAll(rest)
  }

  /** The decisions the graph shows: those outside else bodies and not behind a jump. */
  function Seen(s: Stmt): nat {
    match s
    case Block(_, _, children) => SeenAll(children)
    case If(_, _, cons, _) => 1 + Seen(cons)
    case While(_, _, body) => 1 + Seen(body)
    case ForIn(_, _, body) => 1 + Seen(body)
    case _ => 0
  }

  function SeenAll(ss: Stmts): nat {
    match ss
    case Nil => 0
    case Cons(s, rest) => Seen(s) + if Jumps(s) then 0 else SeenAll(rest)
  }

  // ----- McCabe's count -----

  /** The if, while and for-in statements of a function. */
  function Decisions(s: Stmt): nat {
    match s
    case Block(_, _, children) => DecisionsAll(children)
    case If(_, _, cons, alt) => 1 + Decisions(cons) + if alt.ElseClause? then Decisions(alt.body) else 0
    case While(_, _, body) => 1 + Decisions(body)
    case ForIn(_, _, body) => 1 + Decisions(body)
    case _ => 0
  }

  function DecisionsAll(ss: Stmts): nat {
    match ss
    case Nil => 0
    case Cons(s, rest) => Decisions(s) + DecisionsAll(rest)
  }

  /** No decision anywhere, else bodies and dead code included. */
  predicate Straight(s: Stmt) {
    match s
    case Block(_, _, children) => StraightAll(children)
    case If(_, _, _, _) => false
    case While(_, _, _) => false
    case ForIn(_, _, _) => false
    case _ => true
  }

  predicate StraightAll(ss: Stmts) {
    match ss
    case Nil => true
    case Cons(s, rest) => Straight(s) && StraightAll(rest)
  }

  /** Else bodies and dead code are straight. */
  predicate NothingHidden(s: Stmt) {
    match s
    case Block(_, _, children) => NothingHiddenAll(children)
    case If(_, _, cons, alt) => NothingHidden(cons) && (alt.ElseClause? ==> Straight(alt.body))
    case While(_, _, body) => NothingHidden(body)
    case ForIn(_, _, body) => NothingHidden(body)
    case _ => true
  }

  predicate NothingHiddenAll(ss: Stmts) {
    match ss
    case Nil => true
    case Cons(s, rest) => NothingHidden(s) && if Jumps(s) then StraightAll(rest) else NothingHiddenAll(rest)
  }

  lemma {:induction false} StraightExactly(s: Stmt)
    ensures Straight(s) <==> Decisions(s) == 0
  {
    if s.Block? {
      StraightExactlyAll(s.children);
    }
  }

  lemma {:induction false} StraightExactlyAll(ss: Stmts)
    ensures StraightAll(ss) <==> DecisionsAll(ss) == 0
  {
    if ss.Cons? {
      StraightExactly(ss.head);
      StraightExactlyAll(ss.tail);
    }
  }

  /** The graph shows every decision if and only if none hides in an else body or
      behind a jump. */
  lemma {:induction false} SeenExactly(s: Stmt)
    ensures Seen(s) <= Decisions(s) && (NothingHidden(s) <==> Seen(s) == Decisions(s))
  {
    match s
    case Block(_, _, children) => SeenExactlyAll(children);
    case If(_, _, cons, alt) =>
      SeenExactly(cons);
      if alt.ElseClause? {
        StraightExactly(alt.body);
      }
    case While(_, _, body) => SeenExactly(body);
    case ForIn(_, _, body) => SeenExactly(body);
    case _ =>
  }

  lemma {:induction false} SeenExactlyAll(ss: Stmts)
    ensures SeenAll(ss) <= DecisionsAll(ss) && (NothingHiddenAll(ss) <==> SeenAll(ss) == DecisionsAll(ss))
  {
    match ss
    case Nil =>
    case Cons(s, rest) =>
      SeenExactly(s);
      SeenExactlyAll(rest);
      StraightExactlyAll(rest);
  }

  /** The decisions in the bodies of the top-level declarations. */
  function DeclaredDecisions(ss: Stmts): nat {
    match ss
    case Nil => 0
    case Cons(s, rest) => (if Revisited(s) then Decisions(s.body) else 0) + DeclaredDecisions(rest)
  }

  /** A program also shows the decisions of its declarations, which are built inline. */
  lemma {:induction false} ExpandedDecisions(ss: Stmts)
    ensures DecisionsAll(Expanded(ss)) == DecisionsAll(ss) + DeclaredDecisions(ss)
  {
    match ss
    case Nil =>
    case Cons(s, rest) =>
      ExpandedDecisions(rest);
      if Revisited(s) {
        assert DecisionsAll(Cons(s.body, Expanded(rest))) == Decisions(s.body) + DecisionsAll(Expanded(rest));
      }
  }

  /** Outside a loop only a return can jump. */
  lemma {:induction false} OnlyReturns(s: Stmt)
    requires WellNested(s, false)
    ensures Jumps(s) <==> Returns(s)
  {
    if s.Block? {
      OnlyReturnsAll(s.children);
    }
  }

  lemma {:induction false} OnlyReturnsAll(ss: Stmts)
    requires WellNestedAll(ss, false)
    ensures JumpsAll(ss) <==> ReturnsAll(ss)
  {
    if ss.Cons? {
      OnlyReturns(ss.head);
      OnlyReturnsAll(ss.tail);
    }
  }

  // ----- the edges of tidy statements -----

  /** Tidy statements add an edge for each decision they show, and one more for a jump. */
  lemma {:induction false} TidyFlow(s: Stmt)
    requires Tidy(s)
    ensures var f := FlowOf(s, START);
      && f.edges == Seen(s) + Count(Jumps(s)) && (if Jumps(s) then !GoesOn(f) else f.end == START)
      && (Returns(s) ==> f.leaves && !f.end.reached)
  {
    match s
    case Block(_, _, children) => TidyFlowAll(children);
    case If(_, _, cons, _) => TidyFlow(cons);
    case While(_, _, body) => TidyFlow(body);
    case ForIn(_, _, body) => TidyFlow(body);
    case _ =>
  }

  lemma {:induction false} TidyFlowAll(ss: Stmts)
    requires TidyAll(ss)
    ensures var f := FlowAll(ss, START);
      && f.edges == SeenAll(ss) + Count(JumpsAll(ss)) && (if JumpsAll(ss) then !GoesOn(f) else f.end == START)
      && (ReturnsAll(ss) ==> f.leaves && !f.end.reached)
  {
    match ss
    case Nil =>
    case Cons(s, rest) =>
      TidyFlow(s);
      var first := FlowOf(s, START);
      if !Jumps(s) {
        TidyFlowAll(rest);
      } else if Returns(s) {
        NoWayInAll(rest, first.end);
      }
  }

  /** So a tidy function has one more than the decisions it shows. */
  lemma TidyCount(s: Stmt)
    requires Tidy(s) && WellNested(s, false)
    ensures Cyclomatic(FlowOf(s, START)) == Seen(s) + 1
  {
    TidyFlow(s);
    OnlyReturns(s);
  }

  lemma TidyCountAll(ss: Stmts)
    requires TidyAll(ss) && WellNestedAll(ss, false)
    ensures Cyclomatic(FlowAll(ss, START)) == SeenAll(ss) + 1
  {
    TidyFlowAll(ss);
    OnlyReturnsAll(ss);
  }

  // ----- every function of a program -----

  /** `f` is a function the builder meets in `s`: it does not look into else bodies. */
  predicate BuildsFunction(s: Stmt, f: Stmt) {
    match s
    case Block(_, _, children) => BuildsFunctionAll(children, f)
    case If(_, _, cons, _) => BuildsFunction(cons, f)
    case While(_, _, body) => BuildsFunction(body, f)
    case ForIn(_, _, body) => BuildsFunction(body, f)
    case Function(_, _, body) => s == f || BuildsFunction(body, f)
    case _ => false
  }

  predicate BuildsFunctionAll(ss: Stmts, f: Stmt) {
    match ss
    case Nil => false
    case Cons(s, rest) => BuildsFunction(s, f) || BuildsFunctionAll(rest, f)
  }

  lemma {:induction false} ExpandedFunctions(ss: Stmts, f: Stmt)
    ensures BuildsFunctionAll(Expanded(ss), f) <==> BuildsFunctionAll(ss, f)
  {
    match ss
    case Nil =>
    case Cons(s, rest) =>
      ExpandedFunctions(rest, f);
      if Revisited(s) {
        assert BuildsFunctionAll(Cons(s.body, Expanded(rest)), f) <==>
               BuildsFunction(s.body, f) || BuildsFunctionAll(Expanded(rest), f);
      }
  }

  lemma {:induction false} BuildsInIds(s: Stmt, f: Stmt)
    requires BuildsFunction(s, f)
    ensures f.Function? && f.id in Ids(s)
  {
    match s
    case Block(_, _, children) => BuildsInIdsAll(children, f);
    case If(_, _, cons, _) => BuildsInIds(cons, f);
    case While(_, _, body) => BuildsInIds(body, f);
    case ForIn(_, _, body) => BuildsInIds(body, f);
    case Function(_, _, body) => if s != f { BuildsInIds(body, f); }
  }

  lemma {:induction false} BuildsInIdsAll(ss: Stmts, f: Stmt)
    requires BuildsFunctionAll(ss, f)
    ensures f.Function? && f.id in IdsAll(ss)
  {
    if BuildsFunction(ss.head, f) { BuildsInIds(ss.head, f); } else { BuildsInIdsAll(ss.tail, f); }
  }

  /** With unique identifiers a function is known by its own. */
  lemma {:induction false} SameFunction(s: Stmt, f: Stmt, h: Stmt)
    requires UniqueIds(s) && BuildsFunction(s, f) && BuildsFunction(s, h) && f.id == h.id
    ensures f == h
  {
    match s
    case Block(_, _, children) => SameFunctionAll(children, f, h);
    case If(_, _, cons, _) => SameFunction(cons, f, h);
    case While(_, _, body) => SameFunction(body, f, h);
    case ForIn(_, _, body) => SameFunction(body, f, h);
    case Function(_, _, body) =>
      if s != f { BuildsInIds(body, f); }
      if s != h { BuildsInIds(body, h); }
      if s != f && s != h { SameFunction(body, f, h); }
  }

  lemma {:induction false} SameFunctionAll(ss: Stmts, f: Stmt, h: Stmt)
    requires UniqueIdsAll(ss) && BuildsFunctionAll(ss, f) && BuildsFunctionAll(ss, h) && f.id == h.id
    ensures f == h
  {
    match ss
    case Cons(s, rest) =>
      if BuildsFunction(s, f) { BuildsInIds(s, f); } else { BuildsInIdsAll(rest, f); }
      if BuildsFunction(s, h) { BuildsInIds(s, h); } else { BuildsInIdsAll(rest, h); }
      if BuildsFunction(s, f) { SameFunction(s, f, h); } else { SameFunctionAll(rest, f, h); }
  }

  function RecordOf(f: Stmt): Record
    requires f.Function?
  {
    Record(f.id, Cyclomatic(FlowOf(f.body, START)))
  }

  /** The records are those of the functions that are built. */
  lemma {:induction false} RecordsAreFunctions(s: Stmt, x: Record)
    ensures x in Records(s) <==> exists f: Stmt :: f.Function? && BuildsFunction(s, f) && x == RecordOf(f)
  {
    match s
    case Block(_, _, children) => RecordsAreFunctionsAll(children, x);
    case If(_, _, cons, _) => RecordsAreFunctions(cons, x);
    case While(_, _, body) => RecordsAreFunctions(body, x);
    case ForIn(_, _, body) => RecordsAreFunctions(body, x);
    case Function(_, _, body) =>
      RecordsAreFunctions(body, x);
      assert x in Records(s) <==> x == RecordOf(s) || x in Records(body);
      assert BuildsFunction(s, s);
    case _ =>
  }

  lemma {:induction false} RecordsAreFunctionsAll(ss: Stmts, x: Record)
    ensures x in RecordsAll(ss) <==> exists f: Stmt :: f.Function? && BuildsFunctionAll(ss, f) && x == RecordOf(f)
  {
    match ss
    case Nil =>
    case Cons(s, rest) =>
      RecordsAreFunctions(s, x);
      RecordsAreFunctionsAll(rest, x);
  }

  // ----- the complexity of every function -----

  /** Function `node` is in the graph, and each of its records has this complexity. */
  ghost predicate HasComplexity(g: State, node: NodeId, complexity: int) {
    && (exists k :: 0 <= k < |g.funs| && g.funs[k].node == node)
    && forall k :: 0 <= k < |g.funs| && g.funs[k].node == node ==>
         Complexity(g, Reachable(g, g.funs[k].start)) == complexity
  }

  lemma RecordsGiveComplexity(g: State, records: seq<Record>, x: Record)
    requires |g.funs| == |records| && forall k: nat :: k < |records| ==> HasRecord(g, k, records[k])
    requires x in records && forall y <- records :: y.node == x.node ==> y == x
    ensures HasComplexity(g, x.node, x.complexity)
  {
    var k :| 0 <= k < |records| && records[k] == x;
    hide Complexity, Reachable;
    assert HasRecord(g, k, records[k]);
    forall i: nat | i < |g.funs| && g.funs[i].node == x.node
      ensures Complexity(g, Reachable(g, g.funs[i].start)) == x.complexity
    {
      assert HasRecord(g, i, records[i]);
    }
  }

  /** The complexity of the program, and of every function that is built in it, however
      deeply nested, is the one read off the syntax, whatever its conditions and jumps.
      A function in a top-level declaration is built twice; both records have it. */
  lemma ComplexityExactly(id: NodeId, ss: Stmts)
    requires UniqueIdsAll(ss) && id !in IdsAll(ss) && WellNestedAll(ss, false) && BuildProgram(id, ss).Ok?
    ensures HasComplexity(BuildProgram(id, ss).value, id, Cyclomatic(FlowAll(Expanded(ss), START)))
    ensures forall f: Stmt :: f.Function? && BuildsFunctionAll(ss, f) ==>
              HasComplexity(BuildProgram(id, ss).value, f.id, Cyclomatic(FlowOf(f.body, START)))
  {
    hide BuildProgram, HasRecord, HasComplexity, FlowAll, FlowOf, Cyclomatic, UniqueIdsAll, WellNestedAll, Expanded;
    var g, records := BuildProgram(id, ss).value, ProgramRecords(id, ss);
    ProgramPaths(id, ss);
    forall x | x in records
      ensures x == records[0] || exists f: Stmt :: f.Function? && BuildsFunctionAll(ss, f) && x == RecordOf(f)
    {
      if x != records[0] {
        RecordsAreFunctionsAll(Expanded(ss), x);
        var f: Stmt :| f.Function? && BuildsFunctionAll(Expanded(ss), f) && x == RecordOf(f);
        ExpandedFunctions(ss, f);
      }
    }
    forall x | x in records && x.node == id
      ensures x == records[0]
    {
      if f: Stmt :| f.Function? && BuildsFunctionAll(ss, f) && x == RecordOf(f) {
        BuildsInIdsAll(ss, f);
      }
    }
    RecordsGiveComplexity(g, records, records[0]);
    forall f: Stmt | f.Function? && BuildsFunctionAll(ss, f)
      ensures HasComplexity(g, f.id, Cyclomatic(FlowOf(f.body, START)))
    {
      ExpandedFunctions(ss, f);
      RecordsAreFunctionsAll(Expanded(ss), RecordOf(f));
      BuildsInIdsAll(ss, f);
      forall y | y in records && y.node == f.id
        ensures y == RecordOf(f)
      {
        var h: Stmt :| h.Function? && BuildsFunctionAll(ss, h) && y == RecordOf(h);
        SameFunctionAll(ss, f, h);
      }
      RecordsGiveComplexity(g, records, RecordOf(f));
    }
  }

  /** The count.  When no condition it looks at is constant and nothing stands behind a
      `break` or a `continue`, the complexity is one more than the number of if, while and
      for-in statements the graph shows.  The program shows those of its declarations as
      well, since their bodies are built inline. */
  lemma ComplexityIsDecisionsPlusOne(id: NodeId, ss: Stmts)
    requires UniqueIdsAll(ss) && id !in IdsAll(ss) && WellNestedAll(ss, false) && BuildProgram(id, ss).Ok?
    ensures TidyAll(Expanded(ss)) ==> HasComplexity(BuildProgram(id, ss).value, id, SeenAll(Expanded(ss)) + 1)
    ensures forall f: Stmt :: f.Function? && BuildsFunctionAll(ss, f) && Tidy(f.body) ==>
              HasComplexity(BuildProgram(id, ss).value, f.id, Seen(f.body) + 1)
  {
    hide BuildProgram, HasComplexity, BuildsFunctionAll, Tidy, TidyAll, Seen, SeenAll, FlowAll, FlowOf, Cyclomatic;
    ComplexityExactly(id, ss);
    ExpandedNested(ss);
    if TidyAll(Expanded(ss)) {
      TidyCountAll(Expanded(ss));
    }
    forall f: Stmt | f.Function? && BuildsFunctionAll(ss, f) && Tidy(f.body)
      ensures HasComplexity(BuildProgram(id, ss).value, f.id, Seen(f.body) + 1)
    {
      BuiltNestedAll(ss, f, false);
      TidyCount(f.body);
    }
  }

  /** No loop goes around a function's body. */
  lemma {:induction false} BuiltNested(s: Stmt, f: Stmt, inLoop: bool)
    requires WellNested(s, inLoop) && f.Function? && BuildsFunction(s, f)
    ensures WellNested(f.body, false)
  {
    match s
    case Block(_, role, children) => BuiltNestedAll(children, f, inLoop && role.InOrder?);
    case If(_, _, cons, _) => BuiltNested(cons, f, inLoop);
    case While(_, _, body) => BuiltNested(body, f, true);
    case ForIn(_, _, body) => BuiltNested(body, f, true);
    case Function(_, _, body) => if s != f { BuiltNested(body, f, false); }
  }

  lemma {:induction false} BuiltNestedAll(ss: Stmts, f: Stmt, inLoop: bool)
    requires WellNestedAll(ss, inLoop) && f.Function? && BuildsFunctionAll(ss, f)
    ensures WellNested(f.body, false)
  {
    if BuildsFunction(ss.head, f) { BuiltNested(ss.head, f, inLoop); } else { BuiltNestedAll(ss.tail, f, inLoop); }
  }

  /** McCabe's count, one more than all the decisions of a function, where no decision
      hides in an else body or behind a return.  A program's count exceeds its own by the
      decisions of its declarations. */
  lemma ComplexityIsMcCabe(id: NodeId, ss: Stmts)
    requires UniqueIdsAll(ss) && id !in IdsAll(ss) && WellNestedAll(ss, false) && BuildProgram(id, ss).Ok?
    ensures TidyAll(Expanded(ss)) && NothingHiddenAll(Expanded(ss)) ==>
              HasComplexity(BuildProgram(id, ss).value, id, DecisionsAll(ss) + DeclaredDecisions(ss) + 1)
    ensures forall f: Stmt :: f.Function? && BuildsFunctionAll(ss, f) && Tidy(f.body) && NothingHidden(f.body) ==>
              HasComplexity(BuildProgram(id, ss).value, f.id, Decisions(f.body) + 1)
  {
    hide BuildProgram, HasComplexity, BuildsFunctionAll, Tidy, TidyAll, WellNestedAll, UniqueIdsAll;
    ComplexityIsDecisionsPlusOne(id, ss);
    SeenExactlyAll(Expanded(ss));
    ExpandedDecisions(ss);
    forall f: Stmt | f.Function? && BuildsFunctionAll(ss, f) && Tidy(f.body) && NothingHidden(f.body)
      ensures HasComplexity(BuildProgram(id, ss).value, f.id, Decisions(f.body) + 1)
    {
      SeenExactly(f.body);
    }
  }
}
