/** Which nodes some run executes, read off the syntax: conditions are opaque, so every
    path through the statements is run under some valuation. */
module CfgRuns {
  import opened CfgSyntax

  const TRUE: NodeId -> bool := _ => true
  const FALSE: NodeId -> bool := _ => false

  predicate CanHold(e: Expr) {
    Truth(e, TRUE)
  }

  predicate CanFail(e: Expr) {
    !Truth(e, FALSE)
  }

  lemma {:induction false} GuardsVary(e: Expr, value: NodeId -> bool)
    ensures Truth(e, value) ==> CanHold(e)
    ensures !Truth(e, value) ==> CanFail(e)
  {
    match e
    case Binary(_, _, l, r) =>
      GuardsVary(l, value);
      GuardsVary(r, value);
    case Paren(_, inner) => GuardsVary(inner, value);
    case _ =>
  }

  predicate CanGo(s: Stmt)
    requires IsLoop(s)
  {
    LoopGuard(s, TRUE)
  }

  predicate CanStop(s: Stmt)
    requires IsLoop(s)
  {
    !LoopGuard(s, FALSE)
  }

  /** Some run of the statement ends normally. */
  predicate CanEnd(s: Stmt) {
    match s
    case Block(_, role, children) => role.InOrder? ==> CanEndAll(children)
    case If(_, cond, cons, alt) =>
      || (CanHold(cond) && CanEnd(cons))
      || (CanFail(cond) && (alt.ElseClause? ==> CanEnd(alt.body)))
    case While(_, _, body) => CanStop(s) || (CanGo(s) && CanBreak(body))
    case Break(_) => false
    case Continue(_) => false
    case Return(_) => false
    case _ => true
  }

  predicate CanEndAll(ss: Stmts) {
    match ss
    case Nil => true
    case Cons(s, rest) => CanEnd(s) && CanEndAll(rest)
  }

  /** Some run of the statement breaks out of it. */
  predicate CanBreak(s: Stmt) {
    match s
    case Block(_, role, children) => role.InOrder? && CanBreakAll(children)
    case If(_, cond, cons, alt) =>
      || (CanHold(cond) && CanBreak(cons))
      || (CanFail(cond) && alt.ElseClause? && CanBreak(alt.body))
    case Break(_) => true
    case _ => false
  }

  predicate CanBreakAll(ss: Stmts) {
    match ss
    case Nil => false
    case Cons(s, rest) => CanBreak(s) || (CanEnd(s) && CanBreakAll(rest))
  }

  /** The nodes some run of the statement executes. */
  function Runs(s: Stmt): set<NodeId> {
    match s
    case Block(id, role, children) => {id} + if role.InOrder? then RunsList(children) else {}
    case If(id, cond, cons, alt) =>
      {id, cond.id} + (if CanHold(cond) then Runs(cons) else {})
      + (if CanFail(cond) && alt.ElseClause? then {alt.id} + Runs(alt.body) else {})
    case While(id, cond, body) => {id, cond.id} + if CanGo(s) then Runs(body) else {}
    case ForIn(id, right, body) => {id, right} + Runs(body)
    case _ => {s.id}
  }

  function RunsList(ss: Stmts): set<NodeId>
    decreases ss, 1
  {
    (set n <- Hoisted(ss)) + RunsAll(ss)
  }

  function RunsAll(ss: Stmts): set<NodeId>
    decreases ss, 0
  {
    match ss
    case Nil => {}
    case Cons(s, rest) => Runs(s) + if CanEnd(s) then RunsAll(rest) else {}
  }

  // ----- runs do nothing else -----

  lemma {:induction false} RunsAtMost(s: Stmt, env: Env, t: nat, fuel: nat)
    ensures var r := Exec(s, env, t, fuel);
      && (forall n <- r.trace :: n in Runs(s))
      && (r.outcome == Normal ==> CanEnd(s)) && (r.outcome == Broke ==> CanBreak(s))
    decreases fuel, s, 1
  {
    match s
    case Block(_, role, children) => if role.InOrder? { RunsAtMostAll(children, env, t, fuel); }
    case If(_, cond, cons, alt) =>
      GuardsVary(cond, env(t));
      RunsAtMost(cons, env, t + 1, fuel);
      if alt.ElseClause? {
        RunsAtMost(alt.body, env, t + 1, fuel);
      }
    case While(_, _, _) => RunsAtMostLoop(s, env, t, fuel);
    case ForIn(_, _, _) => RunsAtMostLoop(s, env, t, fuel);
    case _ =>
  }

  lemma {:induction false} RunsAtMostAll(ss: Stmts, env: Env, t: nat, fuel: nat)
    ensures var r := ExecAll(ss, env, t, fuel);
      && (forall n <- r.trace :: n in RunsAll(ss))
      && (r.outcome == Normal ==> CanEndAll(ss)) && (r.outcome == Broke ==> CanBreakAll(ss))
    decreases fuel, ss
  {
    match ss
    case Nil =>
    case Cons(s, rest) =>
      RunsAtMost(s, env, t, fuel);
      RunsAtMostAll(rest, env, Exec(s, env, t, fuel).clock, fuel);
  }

  lemma {:induction false} RunsAtMostLoop(s: Stmt, env: Env, t: nat, fuel: nat)
    requires IsLoop(s)
    ensures var r := ExecLoop(s, env, t, fuel);
      && (forall n <- r.trace :: n == GuardId(s) || (CanGo(s) && n in Runs(s.body)))
      && (r.outcome == Normal ==> CanEnd(s)) && r.outcome != Broke
    decreases fuel, s, 0
  {
    if s.While? {
      GuardsVary(s.cond, env(t));
    }
    if fuel != 0 && LoopGuard(s, env(t)) {
      RunsAtMost(s.body, env, t + 1, fuel - 1);
      RunsAtMostLoop(s, env, Exec(s.body, env, t + 1, fuel - 1).clock, fuel - 1);
    }
  }

  // ----- and some run does each of these things -----

  /** One valuation up to tick `c`, another one from there on. */
  function Then(c: nat, e1: Env, e2: Env): Env {
    (t: nat) => if t < c then e1(t) else e2(t)
  }

  ghost predicate Agree(e1: Env, e2: Env, t: nat, c: nat) {
    forall i :: t <= i < c ==> e1(i) == e2(i)
  }

  /** A run depends on the valuation at its own ticks only. */
  lemma {:induction false} Depends(s: Stmt, e1: Env, e2: Env, t: nat, fuel: nat)
    ensures t <= Exec(s, e1, t, fuel).clock
    ensures Agree(e1, e2, t, Exec(s, e1, t, fuel).clock) ==> Exec(s, e2, t, fuel) == Exec(s, e1, t, fuel)
    decreases fuel, s, 1
  {
    match s
    case Block(_, role, children) => if role.InOrder? { DependsAll(children, e1, e2, t, fuel); }
    case If(_, cond, cons, alt) =>
      Depends(cons, e1, e2, t + 1, fuel);
      if alt.ElseClause? {
        Depends(alt.body, e1, e2, t + 1, fuel);
      }
    case While(_, _, _) => DependsLoop(s, e1, e2, t, fuel);
    case ForIn(_, _, _) => DependsLoop(s, e1, e2, t, fuel);
    case _ =>
  }

  lemma {:induction false} DependsAll(ss: Stmts, e1: Env, e2: Env, t: nat, fuel: nat)
    ensures t <= ExecAll(ss, e1, t, fuel).clock
    ensures Agree(e1, e2, t, ExecAll(ss, e1, t, fuel).clock) ==> ExecAll(ss, e2, t, fuel) == ExecAll(ss, e1, t, fuel)
    decreases fuel, ss
  {
    match ss
    case Nil =>
    case Cons(s, rest) =>
      Depends(s, e1, e2, t, fuel);
      DependsAll(rest, e1, e2, Exec(s, e1, t, fuel).clock, fuel);
  }

  lemma {:induction false} DependsLoop(s: Stmt, e1: Env, e2: Env, t: nat, fuel: nat)
    requires IsLoop(s)
    ensures t <= ExecLoop(s, e1, t, fuel).clock
    ensures Agree(e1, e2, t, ExecLoop(s, e1, t, fuel).clock) ==> ExecLoop(s, e2, t, fuel) == ExecLoop(s, e1, t, fuel)
    decreases fuel, s, 0
  {
    if fuel != 0 && LoopGuard(s, e1(t)) {
      Depends(s.body, e1, e2, t + 1, fuel - 1);
      DependsLoop(s, e1, e2, Exec(s.body, e1, t + 1, fuel - 1).clock, fuel - 1);
    }
  }

  lemma Later(s: Stmt, value: NodeId -> bool, env: Env, t: nat, fuel: nat)
    ensures var e := Then(t + 1, _ => value, env);
      e(t) == value && Exec(s, e, t + 1, fuel) == Exec(s, env, t + 1, fuel)
  {
    var e := Then(t + 1, _ => value, env);
    Depends(s, env, e, t + 1, fuel);
  }

  /** One statement under one valuation, the rest under another. */
  lemma OneThenAll(s: Stmt, rest: Stmts, e1: Env, e2: Env, t: nat, fuel: nat)
    ensures var c := Exec(s, e1, t, fuel).clock; var e := Then(c, e1, e2);
      Exec(s, e, t, fuel) == Exec(s, e1, t, fuel) && ExecAll(rest, e, c, fuel) == ExecAll(rest, e2, c, fuel)
  {
    var c := Exec(s, e1, t, fuel).clock;
    var e := Then(c, e1, e2);
    Depends(s, e1, e, t, fuel);
    DependsAll(rest, e2, e, c, fuel);
  }

  datatype Goal = End | BreakOut | Visit(node: NodeId)

  predicate Can(s: Stmt, goal: Goal) {
    match goal
    case End => CanEnd(s)
    case BreakOut => CanBreak(s)
    case Visit(n) => n in Runs(s)
  }

  predicate CanAll(ss: Stmts, goal: Goal) {
    match goal
    case End => CanEndAll(ss)
    case BreakOut => CanBreakAll(ss)
    case Visit(n) => n in RunsAll(ss)
  }

  predicate Achieved(r: Run, goal: Goal) {
    match goal
    case End => r.outcome == Normal
    case BreakOut => r.outcome == Broke
    case Visit(n) => n in r.trace
  }

  /** Fuel that lets every loop go round once. */
  function Fuel(s: Stmt): nat {
    match s
    case Block(_, _, children) => FuelAll(children)
    case If(_, _, cons, alt) => Fuel(cons) + if alt.ElseClause? then Fuel(alt.body) else 0
    case While(_, _, body) => 1 + Fuel(body)
    case ForIn(_, _, body) => 1 + Fuel(body)
    case _ => 0
  }

  function FuelAll(ss: Stmts): nat {
    match ss
    case Nil => 0
    case Cons(s, rest) => Fuel(s) + FuelAll(rest)
  }

  lemma {:induction false} Achieve(s: Stmt, goal: Goal, t: nat, fuel: nat) returns (env: Env)
    requires Can(s, goal) && fuel >= Fuel(s)
    ensures Achieved(Exec(s, env, t, fuel), goal)
    decreases s
  {
    env := _ => TRUE;
    match s
    case Block(_, role, children) =>
      if role.InOrder? && CanAll(children, goal) {
        env := AchieveAll(children, goal, t, fuel);
      }
      ListAchieves(children, goal, env, t, fuel);
      assert role.InOrder? && goal.Visit? && goal.node != s.id ==> goal.node in RunsList(children);
    case If(_, _, _, _) => env := AchieveIf(s, goal, t, fuel);
    case While(_, _, _) => env := AchieveLoop(s, goal, t, fuel);
    case ForIn(_, _, _) => env := AchieveLoop(s, goal, t, fuel);
    case _ =>
  }

  lemma ListAchieves(ss: Stmts, goal: Goal, env: Env, t: nat, fuel: nat)
    ensures Achieved(ExecAll(ss, env, t, fuel), goal) ==> Achieved(ExecList(ss, env, t, fuel), goal)
    ensures goal.Visit? && goal.node in Hoisted(ss) ==> Achieved(ExecList(ss, env, t, fuel), goal)
  {
  }

  lemma {:induction false} AchieveIf(s: Stmt, goal: Goal, t: nat, fuel: nat) returns (env: Env)
    requires s.If? && Can(s, goal) && fuel >= Fuel(s)
    ensures Achieved(Exec(s, env, t, fuel), goal)
    decreases s, 0
  {
    if CanHold(s.cond) && Can(s.cons, goal) {
      var e := Achieve(s.cons, goal, t + 1, fuel);
      env := Then(t + 1, _ => TRUE, e);
      Later(s.cons, TRUE, e, t, fuel);
    } else if CanFail(s.cond) && s.alt.ElseClause? && Can(s.alt.body, goal) {
      var e := Achieve(s.alt.body, goal, t + 1, fuel);
      env := Then(t + 1, _ => FALSE, e);
      Later(s.alt.body, FALSE, e, t, fuel);
    } else {
      env := _ => FALSE;
    }
  }

  lemma {:induction false} AchieveLoop(s: Stmt, goal: Goal, t: nat, fuel: nat) returns (env: Env)
    requires IsLoop(s) && Can(s, goal) && fuel >= Fuel(s)
    ensures Achieved(Exec(s, env, t, fuel), goal)
    decreases s, 0
  {
    hide Runs, CanEnd, CanBreak, Fuel;
    LoopGoals(s, goal);
    var inner := if goal == End then BreakOut else goal;
    if CanGo(s) && Can(s.body, inner) && !(goal == End && CanStop(s)) {
      var e := Achieve(s.body, inner, t + 1, fuel - 1);
      env := Then(t + 1, _ => TRUE, e);
      Later(s.body, TRUE, e, t, fuel - 1);
    } else {
      env := _ => FALSE;
    }
  }

  lemma LoopGoals(s: Stmt, goal: Goal)
    requires IsLoop(s)
    ensures Fuel(s) == 1 + Fuel(s.body)
    ensures !Can(s, BreakOut) && (Can(s, End) <==> CanStop(s) || (CanGo(s) && Can(s.body, BreakOut)))
    ensures goal.Visit? ==> (Can(s, goal) <==> goal.node in {s.id, GuardId(s)} || (CanGo(s) && Can(s.body, goal)))
  {
  }

  lemma {:induction false} AchieveAll(ss: Stmts, goal: Goal, t: nat, fuel: nat) returns (env: Env)
    requires CanAll(ss, goal) && fuel >= FuelAll(ss)
    ensures Achieved(ExecAll(ss, env, t, fuel), goal)
    decreases ss
  {
    env := _ => TRUE;
    match ss
    case Nil =>
    case Cons(s, rest) =>
      if goal != End && Can(s, goal) {
        env := Achieve(s, goal, t, fuel);
      } else {
        var e1 := Achieve(s, End, t, fuel);
        var c := Exec(s, e1, t, fuel).clock;
        var e2 := AchieveAll(rest, goal, c, fuel);
        env := Then(c, e1, e2);
        OneThenAll(s, rest, e1, e2, t, fuel);
      }
  }

  lemma ListRunsAtMost(ss: Stmts, env: Env, t: nat, fuel: nat)
    ensures forall n <- ExecList(ss, env, t, fuel).trace :: n in RunsList(ss)
  {
    RunsAtMostAll(ss, env, t, fuel);
  }

  /** A run that executes `n`. */
  lemma SomeRun(ss: Stmts, n: NodeId) returns (env: Env, fuel: nat)
    requires n in RunsList(ss)
    ensures n in ExecList(ss, env, 0, fuel).trace
  {
    env, fuel := _ => TRUE, FuelAll(ss);
    if n in RunsAll(ss) {
      env := AchieveAll(ss, Visit(n), 0, fuel);
    }
  }

  /** A list of statements can execute exactly the nodes in RunsList. */
  lemma RunsExactly(ss: Stmts, n: NodeId)
    ensures (exists env: Env, t: nat, fuel: nat :: n in ExecList(ss, env, t, fuel).trace) <==> n in RunsList(ss)
  {
    hide ExecList, RunsList;
    if env: Env, t: nat, fuel: nat :| n in ExecList(ss, env, t, fuel).trace {
      ListRunsAtMost(ss, env, t, fuel);
    }
    if n in RunsList(ss) {
      var env, fuel := SomeRun(ss, n);
    }
  }

  // ----- functions -----

  /** The nodes some run of a function's body executes. */
  function BodyRuns(f: Stmt): set<NodeId>
    requires IsFunction(f)
  {
    if f.Function? then Runs(f.body) else RunsList(f.children)
  }

  lemma BodyRunsExactly(f: Stmt, n: NodeId)
    requires IsFunction(f)
    ensures (exists env: Env, t: nat, fuel: nat :: n in ExecBody(f, env, t, fuel).trace) <==> n in BodyRuns(f)
  {
    hide Exec, ExecList, Runs, RunsList;
    if env: Env, t: nat, fuel: nat :| n in ExecBody(f, env, t, fuel).trace {
      if f.Function? { RunsAtMost(f.body, env, t, fuel); } else { ListRunsAtMost(f.children, env, t, fuel); }
    }
    if n in BodyRuns(f) {
      var env: Env, fuel: nat;
      if f.Function? {
        fuel := Fuel(f.body);
        env := Achieve(f.body, Visit(n), 0, fuel);
      } else {
        env, fuel := SomeRun(f.children, n);
      }
      assert n in ExecBody(f, env, 0, fuel).trace;
    }
  }

  /** A run of the program executes node `n`, or a run of a function that was set up by
      such a run, and so on, `k` functions deep. */
  ghost predicate Executes(ss: Stmts, n: NodeId, k: nat)
    decreases k
  {
    if k == 0 then exists env: Env, t: nat, fuel: nat :: n in ExecList(ss, env, t, fuel).trace
    else exists f: Stmt, env: Env, t: nat, fuel: nat ::
           HasFunctionAll(ss, f) && IsFunction(f) && Executes(ss, f.id, k - 1) && n in ExecBody(f, env, t, fuel).trace
  }

  /** No run of the program, and no run of a function it sets up, executes node `n`. */
  ghost predicate NeverExecuted(ss: Stmts, n: NodeId) {
    forall k: nat :: !Executes(ss, n, k)
  }

  // ----- all that is executed, read off the syntax -----

  /** The nodes that are executed once the statement is, the bodies of the functions it
      sets up included. */
  function Does(s: Stmt): set<NodeId> {
    match s
    case Block(id, _, children) => {id} + DoesAll(children, true)
    case If(id, cond, cons, alt) =>
      {id, cond.id} + (if CanHold(cond) then Does(cons) else {})
      + (if CanFail(cond) && alt.ElseClause? then {alt.id} + Does(alt.body) else {})
    case While(id, cond, body) => {id, cond.id} + if CanGo(s) then Does(body) else {}
    case ForIn(id, right, body) => {id, right} + Does(body)
    case Function(id, _, body) => {id} + Does(body)
    case _ => {s.id}
  }

  /** The same for a list that is entered; `live` says that the rest of it is reached. */
  function DoesAll(ss: Stmts, live: bool): set<NodeId> {
    match ss
    case Nil => {}
    case Cons(s, rest) => (if live || Hoists(s) then Does(s) else {}) + DoesAll(rest, live && CanEnd(s))
  }

  function DoesBody(f: Stmt): set<NodeId>
    requires IsFunction(f)
  {
    if f.Function? then Does(f.body) else DoesAll(f.children, true)
  }

  lemma {:induction false} RunsAreDone(s: Stmt)
    ensures Runs(s) <= Does(s)
  {
    match s
    case Block(_, _, children) => RunsAreDoneAll(children, true);
    case If(_, _, cons, alt) =>
      RunsAreDone(cons);
      if alt.ElseClause? {
        RunsAreDone(alt.body);
      }
    case While(_, _, body) => RunsAreDone(body);
    case ForIn(_, _, body) => RunsAreDone(body);
    case _ =>
  }

  lemma {:induction false} RunsAreDoneAll(ss: Stmts, live: bool)
    ensures (set n <- Hoisted(ss)) + (if live then RunsAll(ss) else {}) <= DoesAll(ss, live)
  {
    match ss
    case Nil =>
    case Cons(s, rest) =>
      RunsAreDone(s);
      RunsAreDoneAll(rest, live && CanEnd(s));
  }

  /** What is executed is run in order, or run by a function that was set up. */
  lemma {:induction false} DoneBy(s: Stmt, n: NodeId) returns (f: Stmt)
    requires n in Does(s) && n !in Runs(s)
    ensures HasFunction(s, f) && IsFunction(f) && f.id in Runs(s) && n in DoesBody(f) && (f < s || f == s)
  {
    match s
    case Block(_, role, children) =>
      if role.InOrder? { f := DoneByAmong(children, true, n); } else { f := s; }
    case If(_, cond, cons, alt) =>
      if CanHold(cond) && n in Does(cons) { f := DoneBy(cons, n); } else { f := DoneBy(alt.body, n); }
    case While(_, _, body) => f := DoneBy(body, n);
    case ForIn(_, _, body) => f := DoneBy(body, n);
    case Function(_, _, body) => f := s;
  }

  lemma {:induction false} DoneByAmong(ss: Stmts, live: bool, n: NodeId) returns (f: Stmt)
    requires n in DoesAll(ss, live) && n !in Hoisted(ss) && (live ==> n !in RunsAll(ss))
    ensures HasFunctionAll(ss, f) && IsFunction(f) && n in DoesBody(f) && f < ss
    ensures f.id in Hoisted(ss) || (live && f.id in RunsAll(ss))
  {
    match ss
    case Cons(s, rest) =>
      if n in DoesAll(rest, live && CanEnd(s)) {
        f := DoneByAmong(rest, live && CanEnd(s), n);
      } else {
        f := DoneBy(s, n);
      }
  }

  /** Function `g` is written in the body of `f`. */
  predicate Inside(f: Stmt, g: Stmt)
    requires IsFunction(f)
  {
    if f.Function? then HasFunction(f.body, g) else HasFunctionAll(f.children, g)
  }

  lemma {:induction false} FunctionsInside(s: Stmt, f: Stmt, g: Stmt)
    requires HasFunction(s, f) && IsFunction(f) && Inside(f, g)
    ensures HasFunction(s, g)
  {
    match s
    case Block(_, role, children) => if s != f { FunctionsInsideAll(children, f, g); }
    case If(_, _, cons, alt) =>
      if HasFunction(cons, f) { FunctionsInside(cons, f, g); } else { FunctionsInside(alt.body, f, g); }
    case While(_, _, body) => FunctionsInside(body, f, g);
    case ForIn(_, _, body) => FunctionsInside(body, f, g);
    case Function(_, _, body) => if s != f { FunctionsInside(body, f, g); }
  }

  lemma {:induction false} FunctionsInsideAll(ss: Stmts, f: Stmt, g: Stmt)
    requires HasFunctionAll(ss, f) && IsFunction(f) && Inside(f, g)
    ensures HasFunctionAll(ss, g)
  {
    if HasFunction(ss.head, f) { FunctionsInside(ss.head, f, g); } else { FunctionsInsideAll(ss.tail, f, g); }
  }

  /** A function that is set up executes everything its body does. */
  lemma {:induction false} BodyDone(ss: Stmts, f: Stmt, n: NodeId, k: nat) returns (more: nat)
    requires HasFunctionAll(ss, f) && IsFunction(f) && Executes(ss, f.id, k) && n in DoesBody(f)
    ensures Executes(ss, n, more)
    decreases f
  {
    hide Exec, ExecAll, ExecList, Runs, RunsAll, Does, DoesAll, HasFunction, HasFunctionAll;
    BodyRunsExactly(f, n);
    if n in BodyRuns(f) {
      more := k + 1;
    } else {
      var g: Stmt;
      if f.Function? { g := DoneBy(f.body, n); } else { g := DoneByAmong(f.children, true, n); }
      BodyRunsExactly(f, g.id);
      assert Executes(ss, g.id, k + 1);
      FunctionsInsideAll(ss, f, g);
      more := BodyDone(ss, g, n, k + 1);
    }
  }

  lemma {:induction false} DoneInIds(s: Stmt)
    ensures Does(s) <= Ids(s)
  {
    match s
    case Block(_, _, children) => DoneInIdsAll(children, true);
    case If(_, _, cons, alt) =>
      DoneInIds(cons);
      if alt.ElseClause? {
        DoneInIds(alt.body);
      }
    case While(_, _, body) => DoneInIds(body);
    case ForIn(_, _, body) => DoneInIds(body);
    case Function(_, _, body) => DoneInIds(body);
    case _ =>
  }

  lemma {:induction false} DoneInIdsAll(ss: Stmts, live: bool)
    ensures DoesAll(ss, live) <= IdsAll(ss)
  {
    match ss
    case Nil =>
    case Cons(s, rest) =>
      DoneInIds(s);
      DoneInIdsAll(rest, live && CanEnd(s));
  }

  lemma {:induction false} FunctionInIds(s: Stmt, f: Stmt)
    requires HasFunction(s, f)
    ensures f.id in Ids(s)
  {
    match s
    case Block(_, _, children) => if HasFunctionAll(children, f) { FunctionInIdsAll(children, f); }
    case If(_, _, cons, alt) => if HasFunction(cons, f) { FunctionInIds(cons, f); } else { FunctionInIds(alt.body, f); }
    case While(_, _, body) => FunctionInIds(body, f);
    case ForIn(_, _, body) => FunctionInIds(body, f);
    case Function(_, _, body) => if s != f { FunctionInIds(body, f); }
  }

  lemma {:induction false} FunctionInIdsAll(ss: Stmts, f: Stmt)
    requires HasFunctionAll(ss, f)
    ensures f.id in IdsAll(ss)
  {
    if HasFunction(ss.head, f) { FunctionInIds(ss.head, f); } else { FunctionInIdsAll(ss.tail, f); }
  }

  /** Where a function is set up, its body counts as executed. */
  lemma {:induction false} SetUpIsDone(s: Stmt, f: Stmt)
    requires UniqueIds(s) && HasFunction(s, f) && IsFunction(f) && f.id in Does(s)
    ensures DoesBody(f) <= Does(s)
  {
    match s
    case Block(_, _, children) =>
      if s != f {
        FunctionInIdsAll(children, f);
        SetUpIsDoneAll(children, true, f);
      }
    case If(_, cond, cons, alt) =>
      DoneInIds(cons);
      if HasFunction(cons, f) {
        FunctionInIds(cons, f);
        if alt.ElseClause? { DoneInIds(alt.body); }
        SetUpIsDone(cons, f);
      } else {
        FunctionInIds(alt.body, f);
        SetUpIsDone(alt.body, f);
      }
    case While(_, _, body) =>
      FunctionInIds(body, f);
      SetUpIsDone(body, f);
    case ForIn(_, _, body) =>
      FunctionInIds(body, f);
      SetUpIsDone(body, f);
    case Function(_, _, body) =>
      if s != f {
        FunctionInIds(body, f);
        SetUpIsDone(body, f);
      }
  }

  lemma {:induction false} SetUpIsDoneAll(ss: Stmts, live: bool, f: Stmt)
    requires UniqueIdsAll(ss) && HasFunctionAll(ss, f) && IsFunction(f) && f.id in DoesAll(ss, live)
    ensures DoesBody(f) <= DoesAll(ss, live)
  {
    match ss
    case Cons(s, rest) =>
      DoneInIds(s);
      DoneInIdsAll(rest, live && CanEnd(s));
      if HasFunction(s, f) {
        FunctionInIds(s, f);
        SetUpIsDone(s, f);
      } else {
        FunctionInIdsAll(rest, f);
        SetUpIsDoneAll(rest, live && CanEnd(s), f);
      }
  }

  lemma {:induction false} ExecutesAtMost(ss: Stmts, n: NodeId, k: nat)
    requires UniqueIdsAll(ss) && Executes(ss, n, k)
    ensures n in DoesAll(ss, true)
    decreases k
  {
    if k == 0 {
      var env: Env, t: nat, fuel: nat :| n in ExecList(ss, env, t, fuel).trace;
      ListRunsAtMost(ss, env, t, fuel);
      RunsAreDoneAll(ss, true);
    } else {
      var f: Stmt, env: Env, t: nat, fuel: nat :|
        HasFunctionAll(ss, f) && IsFunction(f) && Executes(ss, f.id, k - 1) && n in ExecBody(f, env, t, fuel).trace;
      ExecutesAtMost(ss, f.id, k - 1);
      SetUpIsDoneAll(ss, true, f);
      BodyRunsExactly(f, n);
      if f.Function? { RunsAreDone(f.body); } else { RunsAreDoneAll(f.children, true); }
    }
  }

  /** Exactly the nodes in DoesAll are executed, by the program or by the functions it
      sets up. */
  lemma ExecutedExactly(ss: Stmts, n: NodeId)
    requires UniqueIdsAll(ss)
    ensures NeverExecuted(ss, n) <==> n !in DoesAll(ss, true)
  {
    if k: nat :| Executes(ss, n, k) {
      ExecutesAtMost(ss, n, k);
    }
    if n in DoesAll(ss, true) {
      RunsExactly(ss, n);
      if n in RunsList(ss) {
        assert Executes(ss, n, 0);
      } else {
        var f := DoneByAmong(ss, true, n);
        RunsExactly(ss, f.id);
        assert Executes(ss, f.id, 0);
        var k := BodyDone(ss, f, n, 0);
      }
    }
  }
}
