/** Every run is a path of the graph: the nodes that it executes stand on a path of blocks,
    in the order in which they are executed, jumps and rounds of loops included. */
module CfgWalks {
  import opened CfgSyntax
  import opened CfgGraph
  import opened CfgGrowth
  import opened CfgTold
  import opened CfgReach
  import opened CfgRuns
  import opened CfgComplexity
  import opened CfgPaths

  // ----- which statements -----

  /** The statement ends where it began, or jumps: no jump leaves it. */
  predicate Stays(s: Stmt, inLoop: bool) {
    match s
    case Break(_) => inLoop
    case Continue(_) => inLoop
    case Return(_) => false
    case Block(_, role, children) => role.InOrder? ==> StaysAll(children, inLoop)
    case If(_, _, cons, alt) => Stays(cons, inLoop) && (alt.ElseClause? ==> Stays(alt.body, inLoop))
    case While(_, _, body) => Stays(body, true)
    case ForIn(_, _, body) => Stays(body, true)
    case _ => true
  }

  predicate StaysAll(ss: Stmts, inLoop: bool) {
    match ss
    case Nil => true
    case Cons(s, rest) => Stays(s, inLoop) && StaysAll(rest, inLoop)
  }

  /** The graph has a path past the statement. */
  predicate Falls(s: Stmt) {
    match s
    case Break(_) => false
    case Continue(_) => false
    case Return(_) => false
    case Block(_, _, children) => FallsAll(children)
    case If(_, cond, _, alt) => alt.NoElse? || !Pruned(cond, true)
    case While(_, cond, _) => !Pruned(cond, true)
    case _ => true
  }

  predicate FallsAll(ss: Stmts) {
    match ss
    case Nil => true
    case Cons(s, rest) => Falls(s) && FallsAll(rest)
  }

  /** Else bodies, which build nothing, do not jump away, and what is built in place
      without being run there lets paths through. */
  predicate Regular(s: Stmt) {
    match s
    case Block(_, role, children) => if role.InOrder? then RegularAll(children) else FallsAll(children)
    case If(_, _, cons, alt) => Regular(cons) && (alt.ElseClause? ==> Stays(alt.body, false))
    case While(_, _, body) => Regular(body)
    case ForIn(_, _, body) => Regular(body)
    case _ => true
  }

  predicate RegularAll(ss: Stmts) {
    match ss
    case Nil => true
    case Cons(s, rest) => Regular(s) && RegularAll(rest)
  }

  /** Nodes of `M` that the statement executes are in the graph, where they are run. */
  predicate Marked(M: set<NodeId>, s: Stmt) {
    match s
    case Plain(id) => id !in M
    case Block(id, role, children) => id !in M && (role.InOrder? ==> MarkedAll(M, children))
    case If(_, _, cons, alt) => Marked(M, cons) && (alt.ElseClause? ==> Ids(alt.body) !! M)
    case While(_, _, body) => Marked(M, body)
    case ForIn(_, _, body) => Marked(M, body)
    case Function(id, declared, _) => declared ==> id !in M
    case _ => true
  }

  predicate MarkedAll(M: set<NodeId>, ss: Stmts) {
    match ss
    case Nil => true
    case Cons(s, rest) => Marked(M, s) && MarkedAll(M, rest)
  }

  // ----- runs go where the graph leads -----

  /** A run that ends normally goes on to the next block. */
  lemma GoesOn(g: State, from: nat, run: Run, M: set<NodeId>, to: nat, next: nat, brk: seq<nat>, cont: seq<nat>,
      end: nat)
    requires Goes(g, from, run, M, to, brk, cont, end) && (run.outcome == Normal ==> Reaches(g, to, next))
    ensures Goes(g, from, run, M, next, brk, cont, end)
  {
    hide Trail, Reaches;
    if run.outcome == Normal {
      var t := Within(run.trace, M);
      TrailEmpty(g, to, next);
      TrailThen(g, from, t, to, [], next);
      assert t + [] == t;
    }
  }

  /** A constant condition is never against its value, not even in parentheses. */
  lemma PrunedIsSound(cond: Expr, value: NodeId -> bool)
    requires ConditionNode(cond).Some?
    ensures Truth(cond, value) ==> !Pruned(cond, false)
    ensures !Truth(cond, value) ==> !Pruned(cond, true)
  {
    ConstantsAreSound(ConditionNode(cond).value, value);
  }

  /** A statement that no jump leaves ends normally, if it ends. */
  lemma {:induction false} StaysThere(s: Stmt, inLoop: bool, env: Env, t: nat, fuel: nat)
    requires Stays(s, inLoop)
    ensures var o := Exec(s, env, t, fuel).outcome;
            o == Normal || o == Halted || (inLoop && (o == Broke || o == Continued))
    decreases fuel, s, 1
  {
    match s
    case Block(_, _, children) => if s.role.InOrder? { StaysThereAll(children, inLoop, env, t, fuel); }
    case If(_, cond, cons, alt) =>
      if Truth(cond, env(t)) {
        StaysThere(cons, inLoop, env, t + 1, fuel);
      } else if alt.ElseClause? {
        StaysThere(alt.body, inLoop, env, t + 1, fuel);
      }
    case While(_, _, _) => StaysThereLoop(s, env, t, fuel);
    case ForIn(_, _, _) => StaysThereLoop(s, env, t, fuel);
    case _ =>
  }

  lemma {:induction false} StaysThereAll(ss: Stmts, inLoop: bool, env: Env, t: nat, fuel: nat)
    requires StaysAll(ss, inLoop)
    ensures var o := ExecAll(ss, env, t, fuel).outcome;
            o == Normal || o == Halted || (inLoop && (o == Broke || o == Continued))
    decreases fuel, ss, 0
  {
    match ss
    case Nil =>
    case Cons(s, rest) =>
      StaysThere(s, inLoop, env, t, fuel);
      StaysThereAll(rest, inLoop, env, Exec(s, env, t, fuel).clock, fuel);
  }

  lemma {:induction false} StaysThereLoop(s: Stmt, env: Env, t: nat, fuel: nat)
    requires IsLoop(s) && Stays(s.body, true)
    ensures var o := ExecLoop(s, env, t, fuel).outcome; o == Normal || o == Halted
    decreases fuel, s, 0
  {
    if fuel > 0 && LoopGuard(s, env(t)) {
      StaysThere(s.body, true, env, t + 1, fuel - 1);
      StaysThereLoop(s, env, Exec(s.body, env, t + 1, fuel - 1).clock, fuel - 1);
    }
  }

  lemma RunInIds(s: Stmt, env: Env, t: nat, fuel: nat)
    ensures forall n <- Exec(s, env, t, fuel).trace :: n in Ids(s)
  {
    RunsAtMost(s, env, t, fuel);
    RunsAreDone(s);
    DoneInIds(s);
  }

  lemma IfGoes(s: Stmt, st: State, inner: State, s1: State, r: State, M: set<NodeId>, env: Env, t: nat, fuel: nat)
    requires s.If? && Wf(st) && IfDone(s, st, inner, s1, r) && Regular(s) && Marked(M, s)
    requires ConditionNode(s.cond).Some?
    requires var run := Exec(s.cons, env, t + 1, fuel);
             && Goes(s1, inner.current, run, M, s1.current, inner.brk, inner.cont, EndOf(inner))
             && (run.outcome == Normal ==> IsOpen(s1))
    ensures Goes(r, st.current, Exec(s, env, t, fuel), M, r.current, st.brk, st.cont, EndOf(st))
  {
    hide Trail, Reaches, Grown, Holds, Edge, Pruned, Goes;
    var n := |st.blocks|;
    PrunedIsSound(s.cond, env(t));
    HopFrom(r, st.current, s.id, n, M);
    if Truth(s.cond, env(t)) {
      var run := Exec(s.cons, env, t + 1, fuel);
      TwoHops(r, st.current, s.id, n, s.cond.id, n + 1, M);
      GoesMore(s1, r, n + 1, run, M, s1.current, st.brk, st.cont, EndOf(st));
      if run.outcome == Normal {
        Along(r, s1.current, n + 3);
      }
      GoesOn(r, n + 1, run, M, s1.current, n + 3, st.brk, st.cont, EndOf(st));
      GoesThen(r, st.current, [s.id, s.cond.id], n + 1, run, M, n + 3, st.brk, st.cont, EndOf(st));
    } else if s.alt.NoElse? {
      TwoHops(r, st.current, s.id, n, s.cond.id, n + 3, M);
      EndsThere(r, st.current, [s.id, s.cond.id], Run([], Normal, t + 1), M, n + 3, st.brk, st.cont, EndOf(st));
      assert [s.id, s.cond.id] + [] == [s.id, s.cond.id];
    } else {
      TwoHops(r, st.current, s.id, n, s.cond.id, n + 2, M);
      HopFrom(r, n + 2, s.alt.id, n + 3, M);
      TrailThen(r, st.current, Within([s.id, s.cond.id], M), n + 2, Within([s.alt.id], M), n + 3);
      WithinJoin([s.id, s.cond.id], [s.alt.id], M);
      assert [s.id, s.cond.id] + [s.alt.id] == [s.id, s.cond.id, s.alt.id];
      var run := Exec(s.alt.body, env, t + 1, fuel);
      StaysThere(s.alt.body, false, env, t + 1, fuel);
      RunInIds(s.alt.body, env, t + 1, fuel);
      EndsThere(r, st.current, [s.id, s.cond.id, s.alt.id], run, M, n + 3, st.brk, st.cont, EndOf(st));
    }
  }

  lemma TwoHops(g: State, a: nat, n: NodeId, b: nat, m: NodeId, c: nat, M: set<NodeId>)
    requires Holds(g, a, n) && Edge(g, a, b) && Holds(g, b, m) && Edge(g, b, c)
    ensures Trail(g, a, Within([n, m], M), c)
  {
    hide Trail, Holds, Edge;
    HopFrom(g, a, n, b, M);
    HopFrom(g, b, m, c, M);
    TrailThen(g, a, Within([n], M), b, Within([m], M), c);
    WithinJoin([n], [m], M);
    assert [n] + [m] == [n, m];
  }

  /** What follows is not in the graph, and does not jump away. */
  lemma EndsThere(g: State, a: nat, t: seq<NodeId>, run: Run, M: set<NodeId>, to: nat, brk: seq<nat>, cont: seq<nat>,
      end: nat)
    requires Trail(g, a, Within(t, M), to) && (run.outcome == Normal || run.outcome == Halted)
    requires forall n <- run.trace :: n !in M
    ensures Goes(g, a, Prefixed(t, run), M, to, brk, cont, end)
  {
    hide Trail;
    WithinJoin(t, run.trace, M);
    WithinNothing(run.trace, M);
    assert Within(t, M) + [] == Within(t, M);
  }

  lemma {:induction false} RoundsGo(s: Stmt, st: State, inner: State, s1: State, r: State, M: set<NodeId>, env: Env,
      t: nat, fuel: nat)
    requires IsLoop(s) && Wf(st) && LoopDone(s, st, inner, s1, r, M) && Regular(s) && Marked(M, s)
    requires s.While? ==> ConditionNode(s.cond).Some?
    ensures Goes(r, GuardAt(s, st), ExecLoop(s, env, t, fuel), M, r.current, st.brk, st.cont, EndOf(st))
    decreases fuel, s, 0
  {
    hide Trail, Reaches, Grown, Holds, Edge, Pruned, Build, Goes, Exec, LoopEdges, LoopDone, Prefixed, Regular, Marked;
    LoopFacts(s, st, inner, s1, r, M);
    LoopBody(s, M);
    var at := GuardAt(s, st);
    if fuel == 0 {
      CutAtGuard(r, s, at, t, M, r.current, st.brk, st.cont, EndOf(st));
    } else if !LoopGuard(s, env(t)) {
      NoRound(r, s, at, env, t, M, st.brk, st.cont, EndOf(st));
    } else {
      BuildGoes(s.body, inner, M, env, t + 1, fuel - 1);
      RoundBegins(s, env(t));
      OneRound(s, st, inner, s1, r, M, env, t, fuel);
      var clock := Prefixed([GuardId(s)], Exec(s.body, env, t + 1, fuel - 1)).clock;
      RoundsGo(s, st, inner, s1, r, M, env, clock, fuel - 1);
      RoundThen(r, s, at, env, t, fuel, M, r.current, inner.brk, inner.cont, st.brk, st.cont, EndOf(st));
    }
  }

  lemma LoopFacts(s: Stmt, st: State, inner: State, s1: State, r: State, M: set<NodeId>)
    requires IsLoop(s) && Wf(st) && LoopDone(s, st, inner, s1, r, M)
    ensures var at := GuardAt(s, st);
      && Wf(inner) && IsOpen(inner) && Build(s.body, inner) == Ok(s1) && EndOf(inner) == EndOf(st)
      && inner.brk != [] && Last(inner.brk) == r.current == at + 2 && inner.cont != [] && Last(inner.cont) == at
      && LoopEdges(r, s, at)
  {
    hide Trail, Reaches, Grown, Build, Edge, LoopEdges, Within;
  }

  lemma LoopBody(s: Stmt, M: set<NodeId>)
    requires IsLoop(s) && Regular(s) && Marked(M, s)
    ensures Regular(s.body) && Marked(M, s.body)
  {
  }

  /** A round, and what comes after it. */
  lemma RoundThen(g: State, s: Stmt, at: nat, env: Env, t: nat, fuel: nat, M: set<NodeId>, to: nat, brk: seq<nat>,
      cont: seq<nat>, brk': seq<nat>, cont': seq<nat>, end: nat)
    requires IsLoop(s) && fuel > 0 && LoopGuard(s, env(t)) && brk != [] && Last(brk) == to
    requires cont != [] && Last(cont) == at
    requires var run := Prefixed([GuardId(s)], Exec(s.body, env, t + 1, fuel - 1));
             && Goes(g, at, run, M, at, brk, cont, end)
             && Goes(g, at, ExecLoop(s, env, run.clock, fuel - 1), M, to, brk', cont', end)
    ensures Goes(g, at, ExecLoop(s, env, t, fuel), M, to, brk', cont', end)
  {
    hide Trail, Goes, Exec;
    var run := Prefixed([GuardId(s)], Exec(s.body, env, t + 1, fuel - 1));
    if run.outcome == Normal || run.outcome == Continued {
      BackAtGuard(g, at, run, M, brk, cont, end);
      GoesThen(g, at, run.trace, at, ExecLoop(s, env, run.clock, fuel - 1), M, to, brk', cont', end);
    } else {
      LoopLeft(g, at, run, M, brk, cont, brk', cont', end);
    }
  }

  lemma RoundBegins(s: Stmt, value: NodeId -> bool)
    requires IsLoop(s) && LoopGuard(s, value) && (s.While? ==> ConditionNode(s.cond).Some?)
    ensures !Skips(s, false)
  {
    if s.While? { PrunedIsSound(s.cond, value); }
  }

  /** A run that is cut off in front of the guard. */
  lemma CutAtGuard(g: State, s: Stmt, at: nat, t: nat, M: set<NodeId>, to: nat, brk: seq<nat>, cont: seq<nat>, end: nat)
    requires IsLoop(s) && LoopEdges(g, s, at)
    ensures Goes(g, at, Run([], Halted, t), M, to, brk, cont, end)
  {
    hide Trail, Reaches, Holds, Edge, Goes;
    InBlock(g, s, at);
    Stay(g, at);
    TrailEmpty(g, at, at);
    EndsThere(g, at, [], Run([], Halted, t), M, at, brk, cont, end);
    StopsAnywhere(g, at, Run([], Halted, t), M, at, to, brk, cont, end);
  }

  /** The guard ends the loop. */
  lemma NoRound(g: State, s: Stmt, at: nat, env: Env, t: nat, M: set<NodeId>, brk: seq<nat>, cont: seq<nat>, end: nat)
    requires IsLoop(s) && LoopEdges(g, s, at) && !LoopGuard(s, env(t)) && (s.While? ==> ConditionNode(s.cond).Some?)
    ensures Goes(g, at, Run([GuardId(s)], Normal, t + 1), M, at + 2, brk, cont, end)
  {
    hide Trail, Reaches, Holds, Edge, Pruned, Goes;
    if s.While? { PrunedIsSound(s.cond, env(t)); }
    HopFrom(g, at, GuardId(s), at + 2, M);
    GoesNormal(g, at, Run([GuardId(s)], Normal, t + 1), M, at + 2, brk, cont, end);
  }

  lemma BackAtGuard(g: State, at: nat, run: Run, M: set<NodeId>, brk: seq<nat>, cont: seq<nat>, end: nat)
    requires Goes(g, at, run, M, at, brk, cont, end) && cont != [] && Last(cont) == at
    requires run.outcome == Normal || run.outcome == Continued
    ensures Trail(g, at, Within(run.trace, M), at)
  {
  }

  /** A round that breaks, returns, or is cut off. */
  lemma LoopLeft(g: State, at: nat, run: Run, M: set<NodeId>, brk: seq<nat>, cont: seq<nat>, brk': seq<nat>,
      cont': seq<nat>, end: nat)
    requires Goes(g, at, run, M, at, brk, cont, end) && run.outcome != Normal && run.outcome != Continued
    requires brk != []
    ensures Goes(g, at, if run.outcome == Broke then run.(outcome := Normal) else run, M, Last(brk), brk', cont', end)
  {
  }

  lemma InBlock(g: State, s: Stmt, cont: nat)
    requires IsLoop(s) && LoopEdges(g, s, cont)
    ensures cont < |g.blocks|
  {
  }

  /** A run that is cut off may stop at any block. */
  lemma StopsAnywhere(g: State, from: nat, run: Run, M: set<NodeId>, to: nat, next: nat, brk: seq<nat>, cont: seq<nat>,
      end: nat)
    requires Goes(g, from, run, M, to, brk, cont, end) && run.outcome != Normal
    ensures Goes(g, from, run, M, next, brk, cont, end)
  {
  }

  /** One round: back to the guard, or out of the loop. */
  lemma OneRound(s: Stmt, st: State, inner: State, s1: State, r: State, M: set<NodeId>, env: Env, t: nat, fuel: nat)
    requires IsLoop(s) && Wf(st) && LoopDone(s, st, inner, s1, r, M) && fuel > 0
    requires !Skips(s, false)
    requires var run := Exec(s.body, env, t + 1, fuel - 1);
             && Goes(s1, inner.current, run, M, s1.current, inner.brk, inner.cont, EndOf(inner))
             && (run.outcome == Normal ==> IsOpen(s1))
    ensures var run, cont := Prefixed([GuardId(s)], Exec(s.body, env, t + 1, fuel - 1)), GuardAt(s, st);
            Goes(r, cont, run, M, cont, inner.brk, inner.cont, EndOf(st))
  {
    hide Trail, Reaches, Grown, Holds, Edge, Skips, Build, ExecLoop, Goes;
    var cont := GuardAt(s, st);
    var run := Exec(s.body, env, t + 1, fuel - 1);
    HopFrom(r, cont, GuardId(s), cont + 1, M);
    GoesMore(s1, r, cont + 1, run, M, s1.current, inner.brk, inner.cont, EndOf(inner));
    if run.outcome == Normal {
      Along(r, s1.current, cont);
    }
    GoesOn(r, cont + 1, run, M, s1.current, cont, inner.brk, inner.cont, EndOf(inner));
    GoesThen(r, cont, [GuardId(s)], cont + 1, run, M, cont, inner.brk, inner.cont, EndOf(inner));
  }

  // ----- past a statement -----

  lemma {:induction false} BuildFalls(s: Stmt, st: State)
    requires Wf(st) && IsOpen(st) && Build(s, st).Ok? && Falls(s)
    ensures var r := Build(s, st).value; IsOpen(r) && Reaches(r, st.current, r.current)
    decreases s
  {
    hide Reaches, Grown, Holds, Edge, Pruned, BuildLeaf, Enter, Leave, AddInstruction, Wf, Trail;
    InBlocks(st);
    var r := Build(s, st).value;
    if s.Block? {
      BuildAllFalls(s.children, st);
    } else if s.If? {
      IfBuilt(s, st);
      IfFalls(s, st, Enter(s, st).value, Build(s.cons, Enter(s, st).value).value, r);
    } else if IsLoop(s) {
      LoopBuilt(s, st, {});
      LoopFalls(s, st, Enter(s, st).value, Build(s.body, Enter(s, st).value).value, r);
    } else if s.Function? {
      FunctionBuilt(s, st);
      Stay(r, r.current);
    } else {
      LeafFalls(s, st);
    }
  }

  lemma LeafFalls(s: Stmt, st: State)
    requires Wf(st) && IsOpen(st) && (s.Plain? || s.Simple?)
    ensures var r := BuildLeaf(s, st).value; IsOpen(r) && Reaches(r, st.current, r.current)
  {
    hide AddInstruction, Reaches;
    Stay(st, st.current);
    if s.Simple? {
      InstructionLands(st, s.kind, s.id);
      Stay(AddInstruction(st, s.kind, s.id), st.current);
    }
  }

  lemma IfFalls(s: Stmt, st: State, inner: State, s1: State, r: State)
    requires s.If? && Wf(st) && IfDone(s, st, inner, s1, r) && Falls(s)
    ensures Reaches(r, st.current, r.current)
  {
    hide Reaches, Grown, Edge, Build, Pruned;
    var n := |st.blocks|;
    Along(r, st.current, n);
    if s.alt.NoElse? {
      Along(r, n, n + 3);
    } else {
      Along(r, n, n + 2);
      Along(r, n + 2, n + 3);
      ReachesThen(r, n, n + 2, n + 3);
    }
    ReachesThen(r, st.current, n, n + 3);
  }

  lemma LoopFalls(s: Stmt, st: State, inner: State, s1: State, r: State)
    requires IsLoop(s) && Wf(st) && LoopDone(s, st, inner, s1, r, {}) && Falls(s)
    ensures Reaches(r, st.current, r.current)
  {
    hide Reaches, Grown, Edge, Build, Pruned, Trail;
    var cont := GuardAt(s, st);
    WithinNothing(EntryOf(s), {});
    TrailEmpty(r, st.current, cont);
    Along(r, cont, cont + 2);
    ReachesThen(r, st.current, cont, cont + 2);
  }

  lemma {:induction false} BuildAllFalls(ss: Stmts, st: State)
    requires Wf(st) && IsOpen(st) && BuildAll(ss, st).Ok? && FallsAll(ss)
    ensures var r := BuildAll(ss, st).value; IsOpen(r) && Reaches(r, st.current, r.current)
    decreases ss
  {
    hide Reaches, Build, Wf, Grown;
    match ss
    case Nil =>
      InBlocks(st);
      Stay(st, st.current);
    case Cons(s, rest) =>
      var s1 := Build(s, st).value;
      BuildFalls(s, st);
      BuildAllFalls(rest, s1);
      BuildAllAround(rest, s1);
      var r := BuildAll(rest, s1).value;
      ReachesMore(s1, r, st.current, s1.current);
      ReachesThen(r, st.current, s1.current, r.current);
  }

  lemma BuildAllAround(ss: Stmts, st: State)
    requires Wf(st) && BuildAll(ss, st).Ok?
    ensures Around(st, BuildAll(ss, st).value)
  {
    hide NodesGrew, Build, Grown;
    BuildAllGrew(ss, st);
    var r := BuildAll(ss, st).value;
    GrewIsGrown(st, r, BuiltAll(ss));
    CfgTelling.EndKept(st, r);
  }

  // ----- functions -----

  /** A function in the graph: its body is built between `inner` and `s1`. */
  ghost predicate FunctionDone(s: Stmt, st: State, inner: State, s1: State, r: State)
    requires s.Function? && Wf(st)
  {
    var k := |st.funs|;
    && Wf(inner) && IsOpen(inner) && Build(s.body, inner) == Ok(s1) && k < |inner.funs|
    && inner.funs[k].start == inner.current && inner.funs[k].end == EndOf(inner) && inner.funs[k].node == s.id
    && Grown(st, inner) && Grown(inner, s1) && Grown(s1, r) && Holds(r, st.current, s.id)
    && Wf(r) && r.current == st.current && IsOpen(r) && Edge(r, s1.current, EndOf(inner))
  }

  lemma FunctionBuilt(s: Stmt, st: State)
    requires Wf(st) && s.Function? && IsOpen(st) && Build(s, st).Ok?
    ensures var inner := Enter(s, st).value; var s1 := Build(s.body, inner).value;
            FunctionDone(s, st, inner, s1, Build(s, st).value)
  {
    hide Build, AddInstruction, LeaveFunction, BeginFunction, Wf, Edge, Grown, Holds;
    BuildNested(s, st);
    InBlocks(st);
    InstructionLands(st, Assign, s.id);
    var outer := AddInstruction(st, Assign, s.id);
    BeginLands(outer, s.id);
    var inner := BeginFunction(outer, s.id);
    assert Same(outer, inner, st.current);
    HasFunctions(outer);
    var s1 := Build(s.body, inner).value;
    BuildAround(s.body, inner);
    assert s1.blocks[st.current].after == [] && |s1.blocks| > st.current && s1.current != st.current
        by { AroundTwo(inner, s1, st.current, st.current); }
    LeaveFunctionLands(s1, st.current);
    var r := LeaveFunction(s1, st.current);
    GrownThen(st, outer, inner);
    GrownThen(inner, s1, r);
    GrownThen(outer, inner, r);
    HoldsMore(outer, r, st.current, s.id);
  }

  lemma HasFunctions(st: State)
    requires Wf(st)
    ensures st.stack != []
  {
  }

  lemma BeginLands(st: State, id: NodeId)
    requires Wf(st)
    ensures var r, k := BeginFunction(st, id), |st.funs|;
      && Grown(st, r) && IsOpen(r) && r.current == |st.blocks| && k < |r.funs| && r.funs[k].node == id
      && r.funs[k].start == r.current && r.funs[k].end == EndOf(r)
      && forall b: nat :: b < |st.blocks| ==> Same(st, r, b)
  {
  }

  // ----- every statement -----

  lemma {:induction false} BuildGoes(s: Stmt, st: State, M: set<NodeId>, env: Env, t: nat, fuel: nat)
    requires Wf(st) && IsOpen(st) && Build(s, st).Ok? && Regular(s) && Marked(M, s)
    ensures var r, run := Build(s, st).value, Exec(s, env, t, fuel);
      && Goes(r, st.current, run, M, r.current, st.brk, st.cont, EndOf(st)) && (run.outcome == Normal ==> IsOpen(r))
    decreases fuel, s, 1
  {
    hide Trail, Reaches, Grown, Holds, Edge, Pruned, BuildLeaf, Enter, Leave, AddInstruction, Wf, Goes, Truth;
    InBlocks(st);
    var r, run := Build(s, st).value, Exec(s, env, t, fuel);
    if s.Block? {
      BlockGoes(s, st, M, env, t, fuel);
    } else if s.If? {
      BuildNested(s, st);
      var inner := Enter(s, st).value;
      IfBuilt(s, st);
      BuildGoes(s.cons, inner, M, env, t + 1, fuel);
      EnteredNode(s, st);
      IfGoes(s, st, inner, Build(s.cons, inner).value, r, M, env, t, fuel);
    } else if IsLoop(s) {
      BuildNested(s, st);
      var inner := Enter(s, st).value;
      LoopBuilt(s, st, M);
      EnteredNode(s, st);
      RoundsGo(s, st, inner, Build(s.body, inner).value, r, M, env, t, fuel);
      GoesThen(r, st.current, EntryOf(s), GuardAt(s, st), ExecLoop(s, env, t, fuel), M, r.current, st.brk, st.cont,
               EndOf(st));
    } else if s.Function? {
      FunctionBuilt(s, st);
      InBlocks(r);
      Stay(r, r.current);
      StandsOn(r, r.current, s.id, r.current, M);
      GoesNormal(r, st.current, run, M, r.current, st.brk, st.cont, EndOf(st));
    } else {
      LeafGoes(s, st, M, env, t, fuel);
    }
  }

  lemma GoesNormal(g: State, from: nat, run: Run, M: set<NodeId>, to: nat, brk: seq<nat>, cont: seq<nat>, end: nat)
    requires run.outcome == Normal && Trail(g, from, Within(run.trace, M), to)
    ensures Goes(g, from, run, M, to, brk, cont, end)
  {
  }

  lemma EnteredNode(s: Stmt, st: State)
    requires Wf(st) && IsNested(s) && Enter(s, st).Ok?
    ensures s.If? || s.While? ==> ConditionNode(s.cond).Some?
  {
  }

  /** A list of statements, or content that is built in place without being run. */
  lemma {:induction false} BlockGoes(s: Stmt, st: State, M: set<NodeId>, env: Env, t: nat, fuel: nat)
    requires Wf(st) && IsOpen(st) && s.Block? && BuildAll(s.children, st).Ok? && Regular(s) && Marked(M, s)
    ensures var r, run := BuildAll(s.children, st).value, Exec(s, env, t, fuel);
      && Goes(r, st.current, run, M, r.current, st.brk, st.cont, EndOf(st)) && (run.outcome == Normal ==> IsOpen(r))
    decreases fuel, s, 0
  {
    hide Trail, Reaches, Grown, Wf, Goes, BuildAll, Exec, Hoisted, Within;
    var r := BuildAll(s.children, st).value;
    BlockRun(s, env, t, fuel);
    if s.role.InOrder? {
      var run := ExecAll(s.children, env, t, fuel);
      AllGoes(s.children, st, M, env, t, fuel);
      InBlocks(st);
      BuildAllAround(s.children, st);
      BlockFits(st, r);
      Stay(r, st.current);
      TrailEmpty(r, st.current, st.current);
      var front := [s.id] + Hoisted(s.children);
      HoistedOff(s.children, M);
      WithinNothing(front, M);
      GoesThen(r, st.current, front, st.current, run, M, r.current, st.brk, st.cont, EndOf(st));
    } else {
      BuildAllFalls(s.children, st);
      WithinNothing([s.id], M);
      TrailEmpty(r, st.current, r.current);
      GoesNormal(r, st.current, Run([s.id], Normal, t), M, r.current, st.brk, st.cont, EndOf(st));
    }
  }

  lemma BlockRun(s: Stmt, env: Env, t: nat, fuel: nat)
    requires s.Block?
    ensures Exec(s, env, t, fuel) == if s.role.InOrder?
              then Prefixed([s.id] + Hoisted(s.children), ExecAll(s.children, env, t, fuel)) else Run([s.id], Normal, t)
  {
    Texts.Associates([s.id], Hoisted(s.children), ExecAll(s.children, env, t, fuel).trace);
  }

  lemma BlockFits(st: State, r: State)
    requires Wf(st) && Around(st, r)
    ensures st.current < |r.blocks|
  {
  }

  lemma {:induction false} HoistedOff(ss: Stmts, M: set<NodeId>)
    requires MarkedAll(M, ss)
    ensures forall n <- Hoisted(ss) :: n !in M
  {
    match ss
    case Nil =>
    case Cons(_, rest) => HoistedOff(rest, M);
  }

  lemma {:induction false} AllGoes(ss: Stmts, st: State, M: set<NodeId>, env: Env, t: nat, fuel: nat)
    requires Wf(st) && IsOpen(st) && BuildAll(ss, st).Ok? && RegularAll(ss) && MarkedAll(M, ss)
    ensures var r, run := BuildAll(ss, st).value, ExecAll(ss, env, t, fuel);
      && Goes(r, st.current, run, M, r.current, st.brk, st.cont, EndOf(st)) && (run.outcome == Normal ==> IsOpen(r))
    decreases fuel, ss, 2
  {
    hide Trail, Reaches, Grown, Wf, Goes, Build;
    match ss
    case Nil =>
      InBlocks(st);
      Stay(st, st.current);
      TrailEmpty(st, st.current, st.current);
      GoesNormal(st, st.current, Run([], Normal, t), M, st.current, st.brk, st.cont, EndOf(st));
    case Cons(s, rest) =>
      var s1, first := Build(s, st).value, Exec(s, env, t, fuel);
      var r := BuildAll(rest, s1).value;
      BuildGoes(s, st, M, env, t, fuel);
      BuildAround(s, st);
      BuildAllAround(rest, s1);
      GoesMore(s1, r, st.current, first, M, s1.current, st.brk, st.cont, EndOf(st));
      if first.outcome == Normal {
        AllGoes(rest, s1, M, env, first.clock, fuel);
        NormalTrail(r, st.current, first, M, s1.current, st.brk, st.cont, EndOf(st));
        GoesThen(r, st.current, first.trace, s1.current, ExecAll(rest, env, first.clock, fuel), M, r.current,
                 st.brk, st.cont, EndOf(st));
      } else {
        StopsAnywhere(r, st.current, first, M, s1.current, r.current, st.brk, st.cont, EndOf(st));
      }
  }

  lemma NormalTrail(g: State, from: nat, run: Run, M: set<NodeId>, to: nat, brk: seq<nat>, cont: seq<nat>, end: nat)
    requires run.outcome == Normal && Goes(g, from, run, M, to, brk, cont, end)
    ensures Trail(g, from, Within(run.trace, M), to)
  {
  }

  // ----- a whole run of a function -----

  /** Jumps stay inside the function. */
  lemma {:induction false} JumpsAreCaught(s: Stmt, inLoop: bool, env: Env, t: nat, fuel: nat)
    requires WellNested(s, inLoop)
    ensures var o := Exec(s, env, t, fuel).outcome; inLoop || (o != Broke && o != Continued)
    decreases fuel, s, 1
  {
    match s
    case Block(_, role, children) => if role.InOrder? { JumpsAreCaughtAll(children, inLoop, env, t, fuel); }
    case If(_, cond, cons, alt) =>
      if Truth(cond, env(t)) {
        JumpsAreCaught(cons, inLoop, env, t + 1, fuel);
      } else if alt.ElseClause? {
        JumpsAreCaught(alt.body, inLoop, env, t + 1, fuel);
      }
    case While(_, _, _) => LoopsCatch(s, env, t, fuel);
    case ForIn(_, _, _) => LoopsCatch(s, env, t, fuel);
    case _ =>
  }

  lemma {:induction false} JumpsAreCaughtAll(ss: Stmts, inLoop: bool, env: Env, t: nat, fuel: nat)
    requires WellNestedAll(ss, inLoop)
    ensures var o := ExecAll(ss, env, t, fuel).outcome; inLoop || (o != Broke && o != Continued)
    decreases fuel, ss, 0
  {
    match ss
    case Nil =>
    case Cons(s, rest) =>
      JumpsAreCaught(s, inLoop, env, t, fuel);
      JumpsAreCaughtAll(rest, inLoop, env, Exec(s, env, t, fuel).clock, fuel);
  }

  lemma {:induction false} LoopsCatch(s: Stmt, env: Env, t: nat, fuel: nat)
    requires IsLoop(s)
    ensures var o := ExecLoop(s, env, t, fuel).outcome; o != Broke && o != Continued
    decreases fuel, s, 0
  {
    if fuel > 0 && LoopGuard(s, env(t)) {
      LoopsCatch(s, env, Exec(s.body, env, t + 1, fuel - 1).clock, fuel - 1);
    }
  }

  /** A run of a function: from its start to its end, or to where it is cut off. */
  ghost predicate Through(g: State, start: nat, run: Run, M: set<NodeId>, end: nat) {
    var t := Within(run.trace, M);
    match run.outcome
    case Normal => Trail(g, start, t, end)
    case Returned => Trail(g, start, t, end)
    case Halted => exists b: nat :: Trail(g, start, t, b)
    case _ => false
  }

  /** Some function record of the graph is the node's, and the run is a path of it. */
  ghost predicate IsWalked(g: State, node: NodeId, run: Run, M: set<NodeId>) {
    exists k: nat :: IsWalkOf(g, k, node, run, M)
  }

  ghost predicate IsWalkOf(g: State, k: nat, node: NodeId, run: Run, M: set<NodeId>) {
    k < |g.funs| && g.funs[k].node == node && Through(g, g.funs[k].start, run, M, g.funs[k].end)
  }

  lemma ThroughMore(g: State, h: State, start: nat, run: Run, M: set<NodeId>, end: nat)
    requires Grown(g, h) && Through(g, start, run, M, end)
    ensures Through(h, start, run, M, end)
  {
    hide Grown, Trail;
    var t := Within(run.trace, M);
    if run.outcome == Halted {
      var b: nat :| Trail(g, start, t, b);
      TrailMore(g, h, start, t, b);
    } else {
      TrailMore(g, h, start, t, end);
    }
  }

  lemma WalkedMore(g: State, h: State, node: NodeId, run: Run, M: set<NodeId>)
    requires Grown(g, h) && IsWalked(g, node, run, M)
    ensures IsWalked(h, node, run, M)
  {
    hide Through;
    var k: nat :| IsWalkOf(g, k, node, run, M);
    assert SameFun(g.funs[k], h.funs[k]);
    ThroughMore(g, h, g.funs[k].start, run, M, g.funs[k].end);
    assert IsWalkOf(h, k, node, run, M);
  }

  /** What goes to the current block goes on to the end, once the edge to it is there. */
  lemma GoesThrough(s1: State, r: State, from: nat, run: Run, M: set<NodeId>, brk: seq<nat>, cont: seq<nat>, end: nat)
    requires Wf(s1) && Goes(s1, from, run, M, s1.current, brk, cont, end) && Grown(s1, r)
    requires Edge(r, s1.current, end) && run.outcome != Broke && run.outcome != Continued
    ensures Through(r, from, run, M, end)
  {
    hide Trail, Reaches, Grown, Edge;
    GoesMore(s1, r, from, run, M, s1.current, brk, cont, end);
    Along(r, s1.current, end);
    GoesOn(r, from, run, M, s1.current, end, brk, cont, end);
  }

  lemma FunctionEnds(st: State, back: nat)
    requires Wf(st) && |st.stack| >= 2 && back < |st.blocks|
    ensures Grown(st, LeaveFunction(st, back)) && Edge(LeaveFunction(st, back), st.current, EndOf(st))
  {
    hide AddEdge, Grown, Edge;
    InBlocks(st);
    EdgeLands(st, st.current, EndOf(st));
    var s1, r := AddEdge(st, st.current, EndOf(st)), LeaveFunction(st, back);
    SameBlocksGrown(s1, r);
    GrownThen(st, s1, r);
    EdgeMore(s1, r, st.current, EndOf(st));
  }

  lemma FunctionWalked(f: Stmt, st: State, M: set<NodeId>, env: Env, t: nat, fuel: nat)
    requires Wf(st) && f.Function? && Build(f, st).Ok?
    requires Regular(f.body) && Marked(M, f.body) && WellNested(f.body, false)
    ensures IsWalked(Build(f, st).value, f.id, Exec(f.body, env, t, fuel), M)
  {
    hide Build, AddInstruction, LeaveFunction, BeginFunction, Wf, Edge, Grown, Goes, Through, Exec;
    BuildNested(f, st);
    var outer := AddInstruction(st, Assign, f.id);
    BeginLands(outer, f.id);
    HasFunctions(outer);
    InBlocks(outer);
    var inner := BeginFunction(outer, f.id);
    var s1 := Build(f.body, inner).value;
    BuildAround(f.body, inner);
    FunctionEnds(s1, outer.current);
    var r, run := LeaveFunction(s1, outer.current), Exec(f.body, env, t, fuel);
    BuildGoes(f.body, inner, M, env, t, fuel);
    JumpsAreCaught(f.body, false, env, t, fuel);
    GoesThrough(s1, r, inner.current, run, M, inner.brk, inner.cont, EndOf(inner));
    GrownThen(inner, s1, r);
    FunKept(inner, r, |outer.funs|);
    assert IsWalkOf(r, |outer.funs|, f.id, run, M);
  }

  lemma FunKept(g: State, h: State, k: nat)
    requires Grown(g, h) && k < |g.funs|
    ensures k < |h.funs| && SameFun(g.funs[k], h.funs[k])
  {
  }

  lemma LeaveGrown(s: Stmt, st: State, s1: State)
    requires Wf(st) && IsNested(s) && Enter(s, st).Ok? && Grows(Enter(s, st).value, s1)
    ensures Grown(s1, Leave(s, st, s1))
  {
    hide EnterIf, EnterWhile, EnterForIn, ForInBase, AddInstruction, LeaveFunction, JoinTo, Grown, Edge;
    match s
    case If(_, _, _, alt) =>
      var n := |st.blocks|;
      JoinLands(s1, n + 3);
      var s2 := JoinTo(s1, n + 3);
      var s3 := SetCurrent(s2, n + 2);
      SameBlocksGrown(s2, s3);
      JoinLands(s3, n + 3);
      GrownThen(s2, s3, JoinTo(s3, n + 3));
      SameBlocksGrown(s2, s2);
      var s4 := if alt.NoElse? then s2 else JoinTo(s3, n + 3);
      SameBlocksGrown(s4, SetCurrent(s4, n + 3));
      GrownThen(s2, s4, SetCurrent(s4, n + 3));
      GrownThen(s1, s2, SetCurrent(s4, n + 3));
    case Function(id, _, _) => FunctionEnds(s1, AddInstruction(st, Assign, id).current);
    case While(_, _, _) => LeaveLoopGrown(s1, |st.blocks|, |st.blocks| + 2);
    case ForIn(_, _, _) => LeaveLoopGrown(s1, ForInBase(st) + 1, ForInBase(st) + 3);
  }

  lemma LeaveLoopGrown(st: State, cont: nat, after: nat)
    requires Wf(st) && cont < |st.blocks| && after < |st.blocks|
    ensures Grown(st, LeaveLoop(st, cont, after))
  {
    hide JoinTo, Grown, Edge;
    JoinLands(st, cont);
    SameBlocksGrown(JoinTo(st, cont), LeaveLoop(st, cont, after));
    GrownThen(st, JoinTo(st, cont), LeaveLoop(st, cont, after));
  }

  lemma {:induction false} BuiltWalked(s: Stmt, st: State, f: Stmt, M: set<NodeId>, env: Env, t: nat, fuel: nat)
    requires Wf(st) && Build(s, st).Ok? && BuildsFunction(s, f)
    requires f.Function? && Regular(f.body) && Marked(M, f.body) && WellNested(f.body, false)
    ensures IsWalked(Build(s, st).value, f.id, Exec(f.body, env, t, fuel), M)
    decreases s
  {
    hide IsWalked, Grown, Wf, Enter, Leave, Exec, Build;
    if s == f {
      FunctionWalked(f, st, M, env, t, fuel);
    } else if s.Block? {
      BlockBuild(s, st);
      BuiltWalkedAll(s.children, st, f, M, env, t, fuel);
    } else {
      BuildNested(s, st);
      var inner := Enter(s, st).value;
      var s1 := Build(Child(s), inner).value;
      BuiltWalked(Child(s), inner, f, M, env, t, fuel);
      LeaveGrown(s, st, s1);
      WalkedMore(s1, Leave(s, st, s1), f.id, Exec(f.body, env, t, fuel), M);
    }
  }

  lemma BlockBuild(s: Stmt, st: State)
    requires Wf(st) && s.Block?
    ensures Build(s, st) == BuildAll(s.children, st)
  {
  }

  lemma {:induction false} BuiltWalkedAll(ss: Stmts, st: State, f: Stmt, M: set<NodeId>, env: Env, t: nat, fuel: nat)
    requires Wf(st) && BuildAll(ss, st).Ok? && BuildsFunctionAll(ss, f)
    requires f.Function? && Regular(f.body) && Marked(M, f.body) && WellNested(f.body, false)
    ensures IsWalked(BuildAll(ss, st).value, f.id, Exec(f.body, env, t, fuel), M)
    decreases ss
  {
    hide IsWalked, Grown, Wf, Exec, Build;
    var s1 := Build(ss.head, st).value;
    if BuildsFunction(ss.head, f) {
      BuiltWalked(ss.head, st, f, M, env, t, fuel);
      BuildAllAround(ss.tail, s1);
      WalkedMore(s1, BuildAll(ss.tail, s1).value, f.id, Exec(f.body, env, t, fuel), M);
    } else {
      BuiltWalkedAll(ss.tail, s1, f, M, env, t, fuel);
    }
  }

  // ----- what the graph shows of a statement -----

  /** The nodes that runs execute and the graph has where they are run: all but
      declarations, which are set up early, nodes that only group others, and what stands
      in else bodies. */
  function Shown(s: Stmt): set<NodeId> {
    match s
    case Plain(_) => {}
    case Block(_, role, children) => if role.InOrder? then ShownAll(children) else {}
    case If(id, cond, cons, alt) =>
      {id, cond.id} + Shown(cons) + if alt.ElseClause? then {alt.id} else {}
    case While(id, cond, body) => {id, cond.id} + Shown(body)
    case ForIn(id, right, body) => {id, right} + Shown(body)
    case Function(id, declared, _) => if declared then {} else {id}
    case _ => {s.id}
  }

  function ShownAll(ss: Stmts): set<NodeId> {
    match ss
    case Nil => {}
    case Cons(s, rest) => Shown(s) + ShownAll(rest)
  }

  lemma {:induction false} ShownInIds(s: Stmt)
    ensures Shown(s) <= Ids(s)
  {
    match s
    case Block(_, _, children) => ShownInIdsAll(children);
    case If(_, _, cons, _) => ShownInIds(cons);
    case While(_, _, body) => ShownInIds(body);
    case ForIn(_, _, body) => ShownInIds(body);
    case _ =>
  }

  lemma {:induction false} ShownInIdsAll(ss: Stmts)
    ensures ShownAll(ss) <= IdsAll(ss)
  {
    match ss
    case Nil =>
    case Cons(s, rest) =>
      ShownInIds(s);
      ShownInIdsAll(rest);
  }

  /** No identifier is used twice, so that a shown node is shown wherever it is run. */
  lemma {:induction false} ShownIsMarked(M: set<NodeId>, s: Stmt)
    requires UniqueIds(s) && M * Ids(s) <= Shown(s)
    ensures Marked(M, s)
  {
    assert s.id in M ==> s.id in M * Ids(s);
    match s
    case Block(id, role, children) =>
      ShownInIdsAll(children);
      if role.InOrder? { ShownIsMarkedAll(M, children); }
    case If(_, _, cons, alt) =>
      ShownInIds(cons);
      ShownIsMarked(M, cons);
    case While(_, _, body) => ShownIsMarked(M, body);
    case ForIn(_, _, body) => ShownIsMarked(M, body);
    case _ =>
  }

  lemma {:induction false} ShownIsMarkedAll(M: set<NodeId>, ss: Stmts)
    requires UniqueIdsAll(ss) && M * IdsAll(ss) <= ShownAll(ss)
    ensures MarkedAll(M, ss)
  {
    match ss
    case Nil =>
    case Cons(s, rest) =>
      ShownInIds(s);
      ShownInIdsAll(rest);
      ShownIsMarked(M, s);
      ShownIsMarkedAll(M, rest);
  }

  // ----- programs -----

  /** The bodies of top-level declarations, which are built in place as well, let paths
      through. */
  predicate RegularTop(ss: Stmts) {
    match ss
    case Nil => true
    case Cons(s, rest) => Regular(s) && (Revisited(s) ==> Falls(s.body)) && RegularTop(rest)
  }

  lemma {:induction false} TopGoes(ss: Stmts, st: State, M: set<NodeId>, env: Env, t: nat, fuel: nat)
    requires Wf(st) && IsOpen(st) && BuildAll(Expanded(ss), st).Ok? && RegularTop(ss) && MarkedAll(M, ss)
    ensures var r, run := BuildAll(Expanded(ss), st).value, ExecAll(ss, env, t, fuel);
      Goes(r, st.current, run, M, r.current, st.brk, st.cont, EndOf(st))
    decreases ss
  {
    hide Trail, Reaches, Grown, Wf, Goes, Build, Exec;
    match ss
    case Nil =>
      InBlocks(st);
      Stay(st, st.current);
      TrailEmpty(st, st.current, st.current);
      GoesNormal(st, st.current, Run([], Normal, t), M, st.current, st.brk, st.cont, EndOf(st));
    case Cons(s, rest) =>
      var first := Exec(s, env, t, fuel);
      BuildGoes(s, st, M, env, t, fuel);
      BuildAround(s, st);
      DeclaredNormal(s, env, t, fuel);
      var s1 := Build(s, st).value;
      var s2 := if Revisited(s) then Build(s.body, s1).value else s1;
      PastTheBody(s, st, first, M);
      var r := BuildAll(Expanded(rest), s2).value;
      BuildAllAround(Expanded(rest), s2);
      GoesMore(s2, r, st.current, first, M, s2.current, st.brk, st.cont, EndOf(st));
      if first.outcome == Normal {
        TopGoes(rest, s2, M, env, first.clock, fuel);
        NormalTrail(r, st.current, first, M, s2.current, st.brk, st.cont, EndOf(st));
        GoesThen(r, st.current, first.trace, s2.current, ExecAll(rest, env, first.clock, fuel), M, r.current,
                 st.brk, st.cont, EndOf(st));
      } else {
        StopsAnywhere(r, st.current, first, M, s2.current, r.current, st.brk, st.cont, EndOf(st));
      }
  }

  lemma DeclaredNormal(s: Stmt, env: Env, t: nat, fuel: nat)
    ensures Revisited(s) ==> Exec(s, env, t, fuel).outcome == Normal
  {
  }

  /** A declaration's body is built again, inline, and passed by. */
  lemma PastTheBody(s: Stmt, st: State, run: Run, M: set<NodeId>)
    requires Wf(st) && Build(s, st).Ok? && (Revisited(s) ==> Build(s.body, Build(s, st).value).Ok? && Falls(s.body))
    requires var s1 := Build(s, st).value;
             && Around(st, s1) && Goes(s1, st.current, run, M, s1.current, st.brk, st.cont, EndOf(st))
             && (run.outcome == Normal ==> IsOpen(s1)) && (Revisited(s) ==> run.outcome == Normal)
    ensures var s1 := Build(s, st).value;
            var s2 := if Revisited(s) then Build(s.body, s1).value else s1;
            && Wf(s2) && Goes(s2, st.current, run, M, s2.current, st.brk, st.cont, EndOf(st))
            && (run.outcome == Normal ==> IsOpen(s2)) && s2.brk == st.brk && s2.cont == st.cont
            && s2.stack == st.stack && EndOf(s2) == EndOf(st)
  {
    hide Trail, Reaches, Grown, Goes, Build;
    var s1 := Build(s, st).value;
    if Revisited(s) {
      BuildFalls(s.body, s1);
      BuildAround(s.body, s1);
      var s2 := Build(s.body, s1).value;
      GoesMore(s1, s2, st.current, run, M, s1.current, st.brk, st.cont, EndOf(st));
      GoesOn(s2, st.current, run, M, s1.current, s2.current, st.brk, st.cont, EndOf(st));
    }
  }

  /** Every run of a regular program is a path of its own part of the graph. */
  lemma ProgramWalked(id: NodeId, ss: Stmts, env: Env, fuel: nat)
    requires BuildProgram(id, ss).Ok? && UniqueIdsAll(ss) && WellNestedAll(ss, false) && RegularTop(ss)
    ensures IsWalkOf(BuildProgram(id, ss).value, 0, id, ExecList(ss, env, 0, fuel), ShownAll(ss))
  {
    hide BuildAll, AddEdge, Wf, Grown, Goes, Through, Trail, Exec, Reaches, Edge, BeginFunction;
    var M, st := ShownAll(ss), BeginFunction(EMPTY, id);
    ShownIsMarkedAll(M, ss);
    StartLands(id);
    var s1, run := BuildAll(Expanded(ss), st).value, ExecAll(ss, env, 0, fuel);
    TopGoes(ss, st, M, env, 0, fuel);
    BuildAllAround(Expanded(ss), st);
    FirstStays(st, s1);
    FirstFits(s1);
    EdgeLands(s1, s1.current, s1.funs[0].end);
    var g := BuildProgram(id, ss).value;
    JumpsAreCaughtAll(ss, false, env, 0, fuel);
    GoesThrough(s1, g, st.current, run, M, st.brk, st.cont, EndOf(st));
    HoistedOff(ss, M);
    WithinNothing(Hoisted(ss), M);
    WithinJoin(Hoisted(ss), run.trace, M);
    ThroughSame(g, st.current, run, ExecList(ss, env, 0, fuel), M, EndOf(st));
  }

  lemma ThroughSame(g: State, start: nat, a: Run, b: Run, M: set<NodeId>, end: nat)
    requires Through(g, start, a, M, end) && a.outcome == b.outcome && Within(b.trace, M) == Within(a.trace, M)
    ensures Through(g, start, b, M, end)
  {
  }

  lemma StartLands(id: NodeId)
    ensures var st := BeginFunction(EMPTY, id);
      && IsOpen(st) && st.funs == [Fun(0, 1, id, [0, 1])] && st.current == 0 && EndOf(st) == 1
  {
  }

  lemma FirstStays(st: State, r: State)
    requires Wf(st) && Around(st, r) && |st.funs| > 0
    ensures |r.funs| > 0 && SameFun(st.funs[0], r.funs[0])
  {
  }

  /** And every run of a regular function that is built, at any depth, is a path of the
      function's part. */
  lemma FunctionsWalked(id: NodeId, ss: Stmts, f: Stmt, env: Env, t: nat, fuel: nat)
    requires BuildProgram(id, ss).Ok? && BuildsFunctionAll(ss, f)
    requires f.Function? && UniqueIds(f.body) && WellNested(f.body, false) && Regular(f.body)
    ensures IsWalked(BuildProgram(id, ss).value, f.id, ExecBody(f, env, t, fuel), Shown(f.body))
  {
    hide BuildAll, AddEdge, Wf, Grown, IsWalked, Exec, BeginFunction;
    var M, st := Shown(f.body), BeginFunction(EMPTY, id);
    ShownIsMarked(M, f.body);
    ExpandedFunctions(ss, f);
    BuiltWalkedAll(Expanded(ss), st, f, M, env, t, fuel);
    var s1 := BuildAll(Expanded(ss), st).value;
    FirstFits(s1);
    EdgeLands(s1, s1.current, s1.funs[0].end);
    WalkedMore(s1, BuildProgram(id, ss).value, f.id, Exec(f.body, env, t, fuel), M);
  }
}
