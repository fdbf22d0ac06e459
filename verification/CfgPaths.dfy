/** Paths of the graph on which given nodes follow each other, and the edges that each
    statement draws for them. */
module CfgPaths {
  import opened Options
  import opened CfgSyntax
  import opened CfgGraph
  import opened CfgGrowth
  import opened CfgTold
  import opened CfgReach
  import CfgTelling
  import Texts

  // ----- trails -----

  predicate Edge(g: State, a: nat, b: nat) {
    a < |g.blocks| && b < |g.blocks| && b in g.blocks[a].after
  }

  /** The block is for the node, or has an instruction of it. */
  predicate Holds(g: State, b: nat, n: NodeId) {
    b < |g.blocks| && Mentions(g.blocks[b], n)
  }

  /** A path from `a` to `b` on which blocks with these nodes follow each other. */
  ghost predicate Trail(g: State, a: nat, t: seq<NodeId>, b: nat)
    decreases |t|
  {
    if t == [] then Reaches(g, a, b)
    else exists c: nat :: Stop(g, a, t[0], c) && Trail(g, c, t[1..], b)
  }

  ghost predicate Stop(g: State, a: nat, n: NodeId, c: nat) {
    Reaches(g, a, c) && Holds(g, c, n)
  }

  lemma Stay(g: State, a: nat)
    requires a < |g.blocks|
    ensures Reaches(g, a, a)
  {
    assert IsPath(g, [a]) && Last([a]) == a;
  }

  lemma Along(g: State, a: nat, b: nat)
    requires Edge(g, a, b)
    ensures Reaches(g, a, b)
  {
    assert IsPath(g, [a, b]) && Last([a, b]) == b;
  }

  lemma ReachesThen(g: State, a: nat, b: nat, c: nat)
    requires Reaches(g, a, b) && Reaches(g, b, c)
    ensures Reaches(g, a, c)
  {
    var p: seq<nat> :| IsPath(g, p) && p[0] == a && Last(p) == b;
    var q: seq<nat> :| IsPath(g, q) && q[0] == b && Last(q) == c;
    var r := p + q[1..];
    forall i | 0 <= i < |r| - 1
      ensures r[i + 1] in g.blocks[r[i]].after
    {
      if i >= |p| - 1 {
        assert r[i] == q[i - (|p| - 1)] && r[i + 1] == q[i - (|p| - 1) + 1];
      }
    }
    assert IsPath(g, r) && r[0] == a && Last(r) == c;
  }

  lemma {:induction false} TrailThen(g: State, a: nat, t: seq<NodeId>, b: nat, u: seq<NodeId>, c: nat)
    requires Trail(g, a, t, b) && Trail(g, b, u, c)
    ensures Trail(g, a, t + u, c)
    decreases |t|
  {
    hide Reaches, Holds;
    if t == [] {
      assert t + u == u;
      if u == [] {
        ReachesThen(g, a, b, c);
      } else {
        var d: nat :| Stop(g, b, u[0], d) && Trail(g, d, u[1..], c);
        ReachesThen(g, a, b, d);
        assert Stop(g, a, u[0], d);
      }
    } else {
      var d: nat :| Stop(g, a, t[0], d) && Trail(g, d, t[1..], b);
      TrailThen(g, d, t[1..], b, u, c);
      assert (t + u)[1..] == t[1..] + u;
      assert Stop(g, a, (t + u)[0], d);
    }
  }

  // ----- graphs that grow -----

  predicate Remains(x: Vertex, y: Vertex) {
    x.after <= y.after && x.code <= y.code && (x.node.Some? ==> y.node == x.node)
  }

  /** Edges, nodes, instructions and functions are only added. */
  ghost predicate Grown(st: State, r: State) {
    && |st.blocks| <= |r.blocks| && FunsKept(st, r)
    && forall b: nat :: b < |st.blocks| ==> Remains(st.blocks[b], r.blocks[b])
  }

  lemma GrownThen(a: State, b: State, c: State)
    requires Grown(a, b) && Grown(b, c)
    ensures Grown(a, c)
  {
    forall x: nat | x < |a.blocks|
      ensures Remains(a.blocks[x], c.blocks[x])
    {
      assert Remains(a.blocks[x], b.blocks[x]) && Remains(b.blocks[x], c.blocks[x]);
    }
  }

  lemma HoldsMore(g: State, h: State, b: nat, n: NodeId)
    requires Grown(g, h) && Holds(g, b, n)
    ensures Holds(h, b, n)
  {
    assert Remains(g.blocks[b], h.blocks[b]);
    if g.blocks[b].node != Some(n) {
      var i :| 0 <= i < |g.blocks[b].code| && g.blocks[b].code[i].node == n;
      assert h.blocks[b].code[i].node == n;
    }
  }

  lemma EdgeMore(g: State, h: State, a: nat, b: nat)
    requires Grown(g, h) && Edge(g, a, b)
    ensures Edge(h, a, b)
  {
    assert Remains(g.blocks[a], h.blocks[a]);
  }

  lemma ReachesMore(g: State, h: State, a: nat, b: nat)
    requires Grown(g, h) && Reaches(g, a, b)
    ensures Reaches(h, a, b)
  {
    var p: seq<nat> :| IsPath(g, p) && p[0] == a && Last(p) == b;
    forall i | 0 <= i < |p| - 1
      ensures p[i + 1] in h.blocks[p[i]].after
    {
      assert Remains(g.blocks[p[i]], h.blocks[p[i]]);
    }
    assert IsPath(h, p);
  }

  lemma {:induction false} TrailMore(g: State, h: State, a: nat, t: seq<NodeId>, b: nat)
    requires Grown(g, h) && Trail(g, a, t, b)
    ensures Trail(h, a, t, b)
    decreases |t|
  {
    hide Grown, Reaches, Holds;
    if t == [] {
      ReachesMore(g, h, a, b);
    } else {
      var c: nat :| Stop(g, a, t[0], c) && Trail(g, c, t[1..], b);
      ReachesMore(g, h, a, c);
      HoldsMore(g, h, c, t[0]);
      TrailMore(g, h, c, t[1..], b);
      assert Stop(h, a, t[0], c);
    }
  }

  // ----- the part of a run that the graph shows -----

  /** The nodes of a run that are in `M`. */
  function Within(t: seq<NodeId>, M: set<NodeId>): seq<NodeId> {
    if t == [] then [] else (if t[0] in M then [t[0]] else []) + Within(t[1..], M)
  }

  lemma {:induction false} WithinJoin(t: seq<NodeId>, u: seq<NodeId>, M: set<NodeId>)
    ensures Within(t + u, M) == Within(t, M) + Within(u, M)
  {
    if t == [] {
      assert t + u == u;
    } else {
      var x := if t[0] in M then [t[0]] else [];
      assert (t + u)[0] == t[0] && (t + u)[1..] == t[1..] + u;
      WithinJoin(t[1..], u, M);
      Texts.Associates(x, Within(t[1..], M), Within(u, M));
    }
  }

  lemma {:induction false} WithinNothing(t: seq<NodeId>, M: set<NodeId>)
    requires forall n <- t :: n !in M
    ensures Within(t, M) == []
  {
    if t != [] {
      WithinNothing(t[1..], M);
    }
  }

  /** One node, if it counts at all. */
  lemma StandsOn(g: State, a: nat, n: NodeId, b: nat, M: set<NodeId>)
    requires Reaches(g, a, b) && b < |g.blocks| && (n in M ==> Holds(g, b, n))
    ensures Trail(g, a, Within([n], M), b)
  {
    hide Reaches, Holds;
    Stay(g, b);
    assert [n][1..] == [];
    if n in M {
      assert Within([n], M) == [n];
      assert Stop(g, a, n, b) && Trail(g, b, [], b);
    }
  }

  /** Where a run gets to: the end of the statement, or the target of its jump. */
  ghost predicate Goes(g: State, from: nat, run: Run, M: set<NodeId>, to: nat, brk: seq<nat>, cont: seq<nat>,
      end: nat)
  {
    var t := Within(run.trace, M);
    match run.outcome
    case Normal => Trail(g, from, t, to)
    case Broke => brk != [] && Trail(g, from, t, Last(brk))
    case Continued => cont != [] && Trail(g, from, t, Last(cont))
    case Returned => Trail(g, from, t, end)
    case Halted => exists b: nat :: Trail(g, from, t, b)
  }

  lemma GoesMore(g: State, h: State, from: nat, run: Run, M: set<NodeId>, to: nat, brk: seq<nat>, cont: seq<nat>,
      end: nat)
    requires Grown(g, h) && Goes(g, from, run, M, to, brk, cont, end)
    ensures Goes(h, from, run, M, to, brk, cont, end)
  {
    hide Grown, Trail;
    var t := Within(run.trace, M);
    match run.outcome
    case Normal => TrailMore(g, h, from, t, to);
    case Broke => TrailMore(g, h, from, t, Last(brk));
    case Continued => TrailMore(g, h, from, t, Last(cont));
    case Returned => TrailMore(g, h, from, t, end);
    case Halted =>
      var b: nat :| Trail(g, from, t, b);
      TrailMore(g, h, from, t, b);
  }

  /** A run behind another. */
  lemma GoesThen(g: State, a: nat, t: seq<NodeId>, from: nat, run: Run, M: set<NodeId>, to: nat, brk: seq<nat>,
      cont: seq<nat>, end: nat)
    requires Trail(g, a, Within(t, M), from) && Goes(g, from, run, M, to, brk, cont, end)
    ensures Goes(g, a, Prefixed(t, run), M, to, brk, cont, end)
  {
    hide Trail;
    WithinJoin(t, run.trace, M);
    var s, u := Within(t, M), Within(run.trace, M);
    match run.outcome
    case Normal => TrailThen(g, a, s, from, u, to);
    case Broke => TrailThen(g, a, s, from, u, Last(brk));
    case Continued => TrailThen(g, a, s, from, u, Last(cont));
    case Returned => TrailThen(g, a, s, from, u, end);
    case Halted =>
      var b: nat :| Trail(g, from, u, b);
      TrailThen(g, a, s, from, u, b);
  }

  // ----- the builder's primitive steps -----

  predicate IsOpen(st: State)
    requires Wf(st)
  {
    st.blocks[st.current].after == []
  }

  /** Block `b` kept its edges and its node. */
  predicate Same(st: State, r: State, b: nat) {
    && b < |st.blocks| && b < |r.blocks|
    && r.blocks[b].after == st.blocks[b].after && r.blocks[b].node == st.blocks[b].node
  }

  predicate Blank(st: State, b: nat) {
    b < |st.blocks| && st.blocks[b].after == [] && st.blocks[b].node.None?
  }

  lemma InstructionLands(st: State, kind: InstructionKind, id: NodeId)
    requires Wf(st) && IsOpen(st)
    ensures var r := AddInstruction(st, kind, id);
      && Grown(st, r) && r.current == st.current && |r.blocks| == |st.blocks| && IsOpen(r) && Holds(r, r.current, id)
      && r.funs == st.funs && forall b: nat :: b < |st.blocks| ==> Same(st, r, b)
  {
    var r := AddInstruction(st, kind, id);
    assert r.blocks[r.current].code[|st.blocks[st.current].code|].node == id;
  }

  lemma EdgeLands(st: State, a: nat, b: nat)
    requires Wf(st) && a < |st.blocks| && b < |st.blocks|
    ensures var r := AddEdge(st, a, b);
      && Grown(st, r) && Edge(r, a, b) && r.current == st.current && r.funs == st.funs
      && (forall x: nat :: x < |st.blocks| && x != a ==> Same(st, r, x)) && r.blocks[a].node == st.blocks[a].node
  {
  }

  lemma NodeLands(st: State, b: nat, id: NodeId)
    requires Wf(st) && b < |st.blocks| && st.blocks[b].node.None?
    ensures var r := SetNode(st, b, id);
      && Grown(st, r) && Holds(r, b, id) && r.current == st.current && r.funs == st.funs
      && (forall x: nat :: x < |st.blocks| && x != b ==> Same(st, r, x)) && r.blocks[b].after == st.blocks[b].after
  {
  }

  lemma BlockLands(st: State)
    requires Wf(st)
    ensures var r := AddBlock(st);
      && Grown(st, r) && r.current == st.current && Blank(r, |st.blocks|)
      && forall x: nat :: x < |st.blocks| ==> Same(st, r, x)
  {
  }

  /** As many fresh blocks as an if or a loop needs. */
  lemma BlocksLand(st: State)
    requires Wf(st)
    ensures var n, r := |st.blocks|, AddBlock(AddBlock(AddBlock(st)));
      && Grown(st, r) && r.current == st.current && Blank(r, n) && Blank(r, n + 1) && Blank(r, n + 2)
      && forall x: nat :: x < n ==> Same(st, r, x)
    ensures var n, r := |st.blocks|, AddBlock(AddBlock(AddBlock(AddBlock(st))));
      && Grown(st, r) && r.current == st.current && Blank(r, n) && Blank(r, n + 1) && Blank(r, n + 2)
      && Blank(r, n + 3) && forall x: nat :: x < n ==> Same(st, r, x)
  {
    hide AddBlock, Grown;
    var a := AddBlock(st);
    var b := AddBlock(a);
    var c := AddBlock(b);
    BlockLands(st);
    BlockLands(a);
    BlockLands(b);
    BlockLands(c);
    GrownThen(st, a, b);
    GrownThen(st, b, c);
    GrownThen(st, c, AddBlock(c));
    var n := |st.blocks|;
    assert Same(a, b, n) && Same(b, c, n) && Same(c, AddBlock(c), n);
    assert Same(b, c, n + 1) && Same(c, AddBlock(c), n + 1) && Same(c, AddBlock(c), n + 2);
    forall x: nat | x < n
      ensures Same(st, c, x) && Same(st, AddBlock(c), x)
    {
      assert Same(st, a, x) && Same(a, b, x) && Same(b, c, x) && Same(c, AddBlock(c), x);
    }
  }

  lemma SameBlocksGrown(st: State, r: State)
    requires r.blocks == st.blocks && r.funs == st.funs
    ensures Grown(st, r)
  {
  }

  /** From the current block, which gets the statement's instruction, to the block of its
      condition. */
  lemma ConditionLands(st: State, id: NodeId, n: nat, condId: NodeId)
    requires Wf(st) && IsOpen(st) && Blank(st, n) && n != st.current
    ensures var r := EnterCondition(st, id, n, condId);
      && Grown(st, r) && Holds(r, st.current, id) && Edge(r, st.current, n) && Holds(r, n, condId)
      && r.current == n && |r.blocks| == |st.blocks| && r.blocks[n].after == []
      && forall x: nat :: x < |st.blocks| && x != n && x != st.current ==> Same(st, r, x)
  {
    hide AddInstruction, AddEdge, SetNode, Grown, Wf, Holds, Edge;
    InstructionLands(st, Branch, id);
    var s1 := AddInstruction(st, Branch, id);
    assert Same(st, s1, n);
    InBlocks(s1);
    EdgeLands(s1, s1.current, n);
    var s2 := AddEdge(s1, s1.current, n);
    assert Same(s1, s2, n);
    NodeLands(s2, n, condId);
    var t := SetNode(s2, n, condId);
    var s3 := SetCurrent(t, n);
    SameBlocksGrown(t, s3);
    GrownThen(s2, t, s3);
    InstructionLands(s3, Branch, id);
    var r := AddInstruction(s3, Branch, id);
    GrownThen(st, s1, s2);
    GrownThen(s2, s3, r);
    GrownThen(st, s2, r);
    GrownThen(s1, s2, r);
    HoldsMore(s1, r, st.current, id);
    EdgeMore(s2, r, st.current, n);
    HoldsMore(t, s3, n, condId);
    HoldsMore(s3, r, n, condId);
    forall x: nat | x < |st.blocks| && x != n && x != st.current
      ensures Same(st, r, x)
    {
      assert Same(st, s1, x) && Same(s1, s2, x) && Same(s2, t, x) && Same(s3, r, x);
    }
  }

  lemma EdgeUnlessLands(st: State, skip: bool, b: nat)
    requires Wf(st) && b < |st.blocks|
    ensures var r := EdgeUnless(st, skip, b);
      && Grown(st, r) && (!skip ==> Edge(r, st.current, b)) && r.current == st.current && r.funs == st.funs
      && (forall x: nat :: x < |st.blocks| && x != st.current ==> Same(st, r, x))
      && r.blocks[st.current].node == st.blocks[st.current].node
  {
    hide AddEdge, Grown;
    InBlocks(st);
    EdgeLands(st, st.current, b);
    SameBlocksGrown(st, st);
  }

  // ----- entering a branch -----

  /** An if statement entered: its consequence is current.  Blocks from `n` on are those of
      the condition, the consequence, the else clause, and the one behind. */
  predicate IfReady(r: State, s: Stmt, from: nat, n: nat)
    requires s.If?
  {
    && r.current == n + 1 && n + 4 <= |r.blocks|
    && r.blocks[n + 1].after == [] && r.blocks[n + 2].after == [] && r.blocks[n + 3].after == []
    && IfEdges(r, s, from, n)
  }

  predicate IfEdges(r: State, s: Stmt, from: nat, n: nat)
    requires s.If?
  {
    && Holds(r, from, s.id) && Edge(r, from, n) && Holds(r, n, s.cond.id)
    && (!Pruned(s.cond, false) ==> Edge(r, n, n + 1))
    && (s.alt.NoElse? ==> Edge(r, n, n + 3))
    && (s.alt.ElseClause? ==> Holds(r, n + 2, s.alt.id) && (!Pruned(s.cond, true) ==> Edge(r, n, n + 2)))
  }

  lemma ElseLands(st: State, n: nat, impl: Expr, alt: Else)
    requires Wf(st) && st.current == n && n + 4 <= |st.blocks| && Blank(st, n + 2)
    ensures var r := ElseBranch(st, n, impl, alt);
      && Grown(st, r) && r.current == n && r.blocks[n + 2].after == []
      && (alt.NoElse? ==> Edge(r, n, n + 3))
      && (alt.ElseClause? ==> Holds(r, n + 2, alt.id) && (!ConstantTrue(impl) ==> Edge(r, n, n + 2)))
      && forall x: nat :: x < |st.blocks| && x != n && x != n + 2 ==> Same(st, r, x)
  {
    hide AddEdge, SetNode, EdgeUnless, Grown, Wf, Holds, Edge, ConstantTrue;
    if alt.NoElse? {
      EdgeLands(st, n, n + 3);
      assert Same(st, AddEdge(st, n, n + 3), n + 2);
    } else {
      var skip := ConstantTrue(impl);
      EdgeUnlessLands(st, skip, n + 2);
      var s1 := EdgeUnless(st, skip, n + 2);
      assert Same(st, s1, n + 2);
      NodeLands(s1, n + 2, alt.id);
      var r := SetNode(s1, n + 2, alt.id);
      GrownThen(st, s1, r);
      if !skip {
        EdgeMore(s1, r, n, n + 2);
      }
      forall x: nat | x < |st.blocks| && x != n && x != n + 2
        ensures Same(st, r, x)
      {
        assert Same(st, s1, x) && Same(s1, r, x);
      }
    }
  }

  lemma BranchesLand(st: State, n: nat, impl: Expr, s: Stmt)
    requires Wf(st) && s.If? && ConditionNode(s.cond) == Some(impl) && st.current == n && n + 4 <= |st.blocks|
    requires Blank(st, n + 1) && Blank(st, n + 2) && Blank(st, n + 3)
    ensures var r := EnterBranches(st, n, impl, s.cons.id, s.alt);
      && Grown(st, r) && r.current == n + 1 && n + 4 <= |r.blocks|
      && r.blocks[n + 1].after == [] && r.blocks[n + 2].after == [] && r.blocks[n + 3].after == []
      && (!Pruned(s.cond, false) ==> Edge(r, n, n + 1)) && (s.alt.NoElse? ==> Edge(r, n, n + 3))
      && (s.alt.ElseClause? ==> Holds(r, n + 2, s.alt.id) && (!Pruned(s.cond, true) ==> Edge(r, n, n + 2)))
  {
    hide AddInstruction, AddEdge, SetNode, EdgeUnless, ElseBranch, Grown, Wf, Holds, Edge, ConstantTrue, ConstantFalse;
    var skip := ConstantFalse(impl);
    EdgeUnlessLands(st, skip, n + 1);
    var s1 := EdgeUnless(st, skip, n + 1);
    assert Same(st, s1, n + 1) && Same(st, s1, n + 2) && Same(st, s1, n + 3);
    NodeLands(s1, n + 1, s.cons.id);
    var s2 := SetNode(s1, n + 1, s.cons.id);
    assert Same(s1, s2, n + 2) && Same(s1, s2, n + 3);
    ElseLands(s2, n, impl, s.alt);
    var s3 := ElseBranch(s2, n, impl, s.alt);
    assert Same(s2, s3, n + 1) && Same(s2, s3, n + 3);
    var s4 := SetCurrent(s3, n + 1);
    SameBlocksGrown(s3, s4);
    InstructionLands(s4, Branch, s.cons.id);
    var r := AddInstruction(s4, Branch, s.cons.id);
    assert Same(s4, r, n + 1) && Same(s4, r, n + 2) && Same(s4, r, n + 3);
    GrownThen(st, s1, s2);
    GrownThen(s3, s4, r);
    GrownThen(s2, s3, r);
    GrownThen(st, s2, r);
    GrownThen(s1, s2, r);
    if !skip {
      EdgeMore(s1, r, n, n + 1);
    }
    if s.alt.NoElse? {
      EdgeMore(s3, r, n, n + 3);
    } else {
      HoldsMore(s3, r, n + 2, s.alt.id);
      if !ConstantTrue(impl) {
        EdgeMore(s3, r, n, n + 2);
      }
    }
  }

  lemma IfLands(st: State, s: Stmt, impl: Expr)
    requires Wf(st) && s.If? && ConditionNode(s.cond) == Some(impl) && IsOpen(st)
    ensures var r := EnterIf(st, s.id, s.cond, impl, s.cons.id, s.alt);
      Grown(st, r) && IfReady(r, s, st.current, |st.blocks|)
  {
    hide AddBlock, EnterCondition, EnterBranches, Grown, Wf, Holds, Edge, Pruned;
    InBlocks(st);
    var n := |st.blocks|;
    BlocksLand(st);
    var s0 := AddBlock(AddBlock(AddBlock(AddBlock(st))));
    assert Same(st, s0, st.current);
    ConditionLands(s0, s.id, n, s.cond.id);
    var s1 := EnterCondition(s0, s.id, n, s.cond.id);
    assert Same(s0, s1, n + 1) && Same(s0, s1, n + 2) && Same(s0, s1, n + 3);
    BranchesLand(s1, n, impl, s);
    var r := EnterBranches(s1, n, impl, s.cons.id, s.alt);
    GrownThen(st, s0, s1);
    GrownThen(st, s1, r);
    HoldsMore(s1, r, st.current, s.id);
    EdgeMore(s1, r, st.current, n);
    HoldsMore(s1, r, n, s.cond.id);
  }

  // ----- entering a loop -----

  /** The guard lets no round begin (`value` is false), or end the loop. */
  predicate Skips(s: Stmt, value: bool)
    requires IsLoop(s)
  {
    s.While? && Pruned(s.cond, value)
  }

  /** A loop entered: its guard is block `cont`, its body is current, and the block behind
      it follows. */
  predicate LoopEntered(r: State, s: Stmt, cont: nat)
    requires IsLoop(s)
  {
    && r.current == cont + 1 && cont + 3 <= |r.blocks|
    && r.blocks[cont + 1].after == [] && r.blocks[cont + 2].after == [] && LoopEdges(r, s, cont)
  }

  predicate LoopEdges(r: State, s: Stmt, cont: nat)
    requires IsLoop(s)
  {
    && Holds(r, cont, GuardId(s)) && (!Skips(s, false) ==> Edge(r, cont, cont + 1))
    && (!Skips(s, true) ==> Edge(r, cont, cont + 2))
  }

  lemma WhileLands(st: State, s: Stmt, impl: Expr)
    requires Wf(st) && s.While? && ConditionNode(s.cond) == Some(impl) && IsOpen(st)
    ensures var r, n := EnterWhile(st, s.id, s.cond, impl, s.body.id), |st.blocks|;
      Grown(st, r) && LoopEntered(r, s, n) && Holds(r, st.current, s.id) && Edge(r, st.current, n)
  {
    hide AddBlock, EnterCondition, WhileBranches, Grown, Wf, Holds, Edge, ConstantTrue, ConstantFalse;
    InBlocks(st);
    var n := |st.blocks|;
    BlocksLand(st);
    var a := AddBlock(AddBlock(AddBlock(st)));
    var s0 := PushLoop(a, n, n + 2);
    SameBlocksGrown(a, s0);
    assert Same(st, a, st.current);
    ConditionLands(s0, s.id, n, s.cond.id);
    var s1 := EnterCondition(s0, s.id, n, s.cond.id);
    assert Same(s0, s1, n + 1) && Same(s0, s1, n + 2);
    WhileBranchesLand(s1, n, impl, s.body.id);
    var r := WhileBranches(s1, n, impl, s.body.id);
    GrownThen(st, a, s0);
    GrownThen(st, s0, s1);
    GrownThen(st, s1, r);
    HoldsMore(s1, r, st.current, s.id);
    EdgeMore(s1, r, st.current, n);
    HoldsMore(s1, r, n, s.cond.id);
  }

  lemma WhileBranchesLand(st: State, n: nat, impl: Expr, bodyId: NodeId)
    requires Wf(st) && st.current == n && n + 3 <= |st.blocks| && Blank(st, n + 1) && Blank(st, n + 2)
    ensures var r := WhileBranches(st, n, impl, bodyId);
      && Grown(st, r) && r.current == n + 1 && r.blocks[n + 1].after == [] && r.blocks[n + 2].after == []
      && (!ConstantFalse(impl) ==> Edge(r, n, n + 1)) && (!ConstantTrue(impl) ==> Edge(r, n, n + 2))
  {
    hide AddEdge, SetNode, EdgeUnless, Grown, Wf, Holds, Edge, ConstantTrue, ConstantFalse;
    EdgeLands(st, n, n + 2);
    SameBlocksGrown(st, st);
    var s1 := if ConstantTrue(impl) then st else AddEdge(st, n, n + 2);
    assert Same(st, s1, n + 1) && Same(st, s1, n + 2);
    var skip := ConstantFalse(impl);
    EdgeUnlessLands(s1, skip, n + 1);
    var s2 := EdgeUnless(s1, skip, n + 1);
    assert Same(s1, s2, n + 1) && Same(s1, s2, n + 2);
    NodeLands(s2, n + 1, bodyId);
    var s3 := SetNode(s2, n + 1, bodyId);
    assert Same(s2, s3, n + 2);
    SameBlocksGrown(s3, SetCurrent(s3, n + 1));
    GrownThen(s2, s3, SetCurrent(s3, n + 1));
    GrownThen(s1, s2, SetCurrent(s3, n + 1));
    GrownThen(st, s1, SetCurrent(s3, n + 1));
    if !skip {
      EdgeMore(s2, SetCurrent(s3, n + 1), n, n + 1);
    }
    if !ConstantTrue(impl) {
      EdgeMore(s1, SetCurrent(s3, n + 1), n, n + 2);
    }
  }

  lemma ForInLands(st: State, s: Stmt)
    requires Wf(st) && s.ForIn? && IsOpen(st)
    ensures var r, n := EnterForIn(st, s.id, s.right, s.body.id), |st.blocks|;
      && ForInBase(st) == n && Grown(st, r) && LoopEntered(r, s, n + 1) && Holds(r, st.current, s.id)
      && Edge(r, st.current, n) && Holds(r, n, s.right) && Edge(r, n, n + 1)
  {
    hide ForInInit, ForInIterator, ForInNext, Grown, Wf, Holds, Edge;
    InBlocks(st);
    var n := |st.blocks|;
    InitLands(st, s.id);
    var s1 := ForInInit(st, s.id);
    IteratorLands(s1, n, s.right);
    var s2 := ForInIterator(s1, n, s.right);
    assert Same(s1, s2, n + 2) && Same(s1, s2, n + 3);
    NextLands(s2, n, s.right, s.body.id);
    var r := ForInNext(s2, n, s.right, s.body.id);
    GrownThen(st, s1, s2);
    GrownThen(st, s2, r);
    GrownThen(s1, s2, r);
    HoldsMore(s1, r, st.current, s.id);
    EdgeMore(s1, r, st.current, n);
    HoldsMore(s2, r, n, s.right);
    EdgeMore(s2, r, n, n + 1);
  }

  lemma InitLands(st: State, id: NodeId)
    requires Wf(st) && IsOpen(st)
    ensures var r, n := ForInInit(st, id), |st.blocks|;
      && ForInBase(st) == n && |r.blocks| == n + 4 && Grown(st, r) && r.current == n && Holds(r, st.current, id)
      && Edge(r, st.current, n) && Blank(r, n) && Blank(r, n + 1) && Blank(r, n + 2) && Blank(r, n + 3)
  {
    hide AddBlock, AddInstruction, AddEdge, Grown, Wf, Holds, Edge;
    InBlocks(st);
    var n := |st.blocks|;
    InstructionLands(st, Branch, id);
    var s0 := AddInstruction(st, Branch, id);
    BlocksLand(s0);
    var a := AddBlock(AddBlock(AddBlock(AddBlock(s0))));
    var s1 := PushLoop(a, n + 1, n + 3);
    SameBlocksGrown(a, s1);
    EdgeLands(s1, s1.current, n);
    var s2 := AddEdge(s1, s1.current, n);
    assert Same(s1, s2, n) && Same(s1, s2, n + 1) && Same(s1, s2, n + 2) && Same(s1, s2, n + 3);
    var r := SetCurrent(s2, n);
    SameBlocksGrown(s2, r);
    GrownThen(st, s0, a);
    GrownThen(st, a, s1);
    GrownThen(s1, s2, r);
    GrownThen(st, s1, r);
    GrownThen(s0, a, s1);
    GrownThen(s0, s1, r);
    HoldsMore(s0, r, st.current, id);
    EdgeMore(s2, r, st.current, n);
  }

  lemma IteratorLands(st: State, n: nat, right: NodeId)
    requires Wf(st) && st.current == n && n + 4 <= |st.blocks| && IsOpen(st) && Blank(st, n + 1)
    ensures var r := ForInIterator(st, n, right);
      && Grown(st, r) && r.current == n + 1 && Holds(r, n, right) && Edge(r, n, n + 1) && Blank(r, n + 1)
      && |r.blocks| == |st.blocks| && forall x: nat :: x < |st.blocks| && x != n ==> Same(st, r, x)
  {
    hide AddInstruction, AddEdge, Grown, Wf, Holds, Edge;
    InstructionLands(st, Assign, right);
    var s1 := AddInstruction(st, Assign, right);
    EdgeLands(s1, n, n + 1);
    var s2 := AddEdge(s1, n, n + 1);
    assert Same(st, s1, n + 1) && Same(s1, s2, n + 1);
    var r := SetCurrent(s2, n + 1);
    SameBlocksGrown(s2, r);
    GrownThen(s1, s2, r);
    GrownThen(st, s1, r);
    HoldsMore(s1, r, n, right);
    EdgeMore(s2, r, n, n + 1);
    forall x: nat | x < |st.blocks| && x != n
      ensures Same(st, r, x)
    {
      assert Same(st, s1, x) && Same(s1, s2, x);
    }
  }

  lemma NextLands(st: State, n: nat, right: NodeId, bodyId: NodeId)
    requires Wf(st) && st.current == n + 1 && n + 4 <= |st.blocks| && IsOpen(st)
    requires Blank(st, n + 2) && Blank(st, n + 3)
    ensures var r := ForInNext(st, n, right, bodyId);
      && Grown(st, r) && r.current == n + 2 && n + 4 <= |r.blocks| && Holds(r, n + 1, right)
      && r.blocks[n + 2].after == [] && r.blocks[n + 3].after == []
      && Edge(r, n + 1, n + 2) && Edge(r, n + 1, n + 3)
  {
    hide AddInstruction, AddEdge, SetNode, Grown, Wf, Holds, Edge;
    InstructionLands(st, Assign, right);
    var s1 := AddInstruction(st, Assign, right);
    InstructionLands(s1, Branch, right);
    var s2 := AddInstruction(s1, Branch, right);
    assert Same(st, s1, n + 2) && Same(st, s1, n + 3) && Same(s1, s2, n + 2) && Same(s1, s2, n + 3);
    EdgeLands(s2, n + 1, n + 2);
    var s3 := AddEdge(s2, n + 1, n + 2);
    assert Same(s2, s3, n + 2) && Same(s2, s3, n + 3);
    EdgeLands(s3, n + 1, n + 3);
    var s4 := AddEdge(s3, n + 1, n + 3);
    assert Same(s3, s4, n + 2) && Same(s3, s4, n + 3);
    NodeLands(s4, n + 2, bodyId);
    var s5 := SetNode(s4, n + 2, bodyId);
    assert Same(s4, s5, n + 3);
    var r := SetCurrent(s5, n + 2);
    SameBlocksGrown(s5, r);
    GrownThen(s4, s5, r);
    GrownThen(s3, s4, r);
    GrownThen(s2, s3, r);
    GrownThen(s1, s2, r);
    GrownThen(st, s1, r);
    HoldsMore(s2, r, n + 1, right);
    EdgeMore(s3, r, n + 1, n + 2);
    EdgeMore(s4, r, n + 1, n + 3);
  }

  // ----- leaving -----

  lemma JoinLands(st: State, b: nat)
    requires Wf(st) && b < |st.blocks|
    ensures var r := JoinTo(st, b);
      && Grown(st, r) && (IsOpen(st) ==> Edge(r, st.current, b)) && r.current == st.current && r.funs == st.funs
      && forall x: nat :: x < |st.blocks| && x != st.current ==> Same(st, r, x)
  {
    hide AddEdge, Grown;
    InBlocks(st);
    EdgeLands(st, st.current, b);
    SameBlocksGrown(st, st);
  }

  lemma LeaveIfLands(st: State, n: nat, alt: Else)
    requires Wf(st) && n + 4 <= |st.blocks| && st.current != n + 2 && st.current != n + 3
    requires st.blocks[n + 2].after == [] && st.blocks[n + 3].after == []
    ensures var r := LeaveIf(st, n, alt);
      && Grown(st, r) && r.current == n + 3 && IsOpen(r) && (IsOpen(st) ==> Edge(r, st.current, n + 3))
      && (alt.ElseClause? ==> Edge(r, n + 2, n + 3))
  {
    hide JoinTo, Grown, Wf, Edge;
    JoinLands(st, n + 3);
    var s1 := JoinTo(st, n + 3);
    assert Same(st, s1, n + 2) && Same(st, s1, n + 3);
    var s2 := SetCurrent(s1, n + 2);
    SameBlocksGrown(s1, s2);
    JoinLands(s2, n + 3);
    var s3 := if alt.NoElse? then s1 else JoinTo(s2, n + 3);
    assert alt.ElseClause? ==> Same(s2, s3, n + 3);
    var r := SetCurrent(s3, n + 3);
    SameBlocksGrown(s3, r);
    SameBlocksGrown(s1, s1);
    if alt.ElseClause? {
      GrownThen(s1, s2, s3);
      EdgeMore(s3, r, n + 2, n + 3);
    }
    GrownThen(s1, s3, r);
    GrownThen(st, s1, r);
    if IsOpen(st) {
      EdgeMore(s1, r, st.current, n + 3);
    }
  }

  lemma LeaveLoopLands(st: State, cont: nat, after: nat)
    requires Wf(st) && cont < |st.blocks| && after < |st.blocks| && st.current != after && st.blocks[after].after == []
    ensures var r := LeaveLoop(st, cont, after);
      Grown(st, r) && r.current == after && IsOpen(r) && (IsOpen(st) ==> Edge(r, st.current, cont))
  {
    hide JoinTo, Grown, Wf, Edge;
    JoinLands(st, cont);
    var s1 := JoinTo(st, cont);
    assert Same(st, s1, after);
    var r := LeaveLoop(st, cont, after);
    SameBlocksGrown(s1, r);
    GrownThen(st, s1, r);
    if IsOpen(st) {
      EdgeMore(s1, r, st.current, cont);
    }
  }

  lemma LeaveFunctionLands(st: State, back: nat)
    requires Wf(st) && |st.stack| >= 2 && back < |st.blocks| && back != st.current && st.blocks[back].after == []
    ensures var r := LeaveFunction(st, back);
      Grown(st, r) && r.current == back && IsOpen(r) && Edge(r, st.current, EndOf(st))
  {
    hide AddEdge, Grown, Edge;
    InBlocks(st);
    EdgeLands(st, st.current, EndOf(st));
    var s1, r := AddEdge(st, st.current, EndOf(st)), LeaveFunction(st, back);
    assert Same(st, s1, back);
    SameBlocksGrown(s1, r);
    GrownThen(st, s1, r);
    EdgeMore(s1, r, st.current, EndOf(st));
  }

  /** A build leaves all blocks but the current one alone. */
  ghost predicate Around(st: State, r: State)
    requires Wf(st)
  {
    && Wf(r) && Grown(st, r) && (r.current == st.current || r.current >= |st.blocks|)
    && (forall b: nat :: b < |st.blocks| && b != st.current ==> r.blocks[b].after == st.blocks[b].after)
    && r.stack == st.stack && r.brk == st.brk && r.cont == st.cont && EndOf(r) == EndOf(st)
  }

  lemma GrewIsGrown(st: State, r: State, m: set<NodeId>)
    requires Grew(|st.blocks|, st.current, m, st, r)
    ensures Grown(st, r)
  {
    hide NodesGrew;
  }

  lemma BuildAround(s: Stmt, st: State)
    requires Wf(st) && Build(s, st).Ok?
    ensures Around(st, Build(s, st).value)
  {
    hide NodesGrew, Build, Grown;
    BuildGrew(s, st);
    var r := Build(s, st).value;
    GrewIsGrown(st, r, Built(s));
    CfgTelling.EndKept(st, r);
  }

  // ----- statements without inner statements -----

  lemma JumpLands(st: State, id: NodeId, target: nat, M: set<NodeId>)
    requires Wf(st) && target < |st.blocks|
    ensures var r := BuildJump(st, id, target);
      Grown(st, r) && Trail(r, st.current, Within([id], M), target)
  {
    hide AddBlock, AddInstruction, AddEdge, Grown, Wf, Holds, Edge, Trail, Reaches;
    InBlocks(st);
    var n := |st.blocks|;
    BlockLands(st);
    var s0 := SetCurrent(AddBlock(st), n);
    SameBlocksGrown(AddBlock(st), s0);
    InstructionLands(s0, Branch, id);
    var s1 := AddInstruction(s0, Branch, id);
    EdgeLands(s1, st.current, n);
    var s2 := AddEdge(s1, st.current, n);
    EdgeLands(s2, n, target);
    var r := AddEdge(s2, n, target);
    GrownThen(st, AddBlock(st), s0);
    GrownThen(st, s0, s1);
    GrownThen(s1, s2, r);
    GrownThen(st, s1, r);
    HoldsMore(s1, r, n, id);
    EdgeMore(s2, r, st.current, n);
    Hop(r, st.current, id, n, target, M);
  }

  /** Over a block with a node to the next one. */
  lemma Hop(g: State, a: nat, n: NodeId, b: nat, c: nat, M: set<NodeId>)
    requires Edge(g, a, b) && Holds(g, b, n) && Edge(g, b, c)
    ensures Trail(g, a, Within([n], M), c)
  {
    hide Trail, Reaches, Holds;
    Along(g, a, b);
    StandsOn(g, a, n, b, M);
    Along(g, b, c);
    assert Trail(g, b, [], c) by { TrailEmpty(g, b, c); }
    TrailThen(g, a, Within([n], M), b, [], c);
    assert Within([n], M) + [] == Within([n], M);
  }

  lemma TrailEmpty(g: State, a: nat, b: nat)
    ensures Trail(g, a, [], b) <==> Reaches(g, a, b)
  {
  }

  lemma ReturnLands(st: State, id: NodeId, M: set<NodeId>)
    requires Wf(st)
    ensures var r := BuildReturn(st, id);
      Grown(st, r) && Trail(r, st.current, Within([id], M), EndOf(st))
  {
    hide AddBlock, AddInstruction, AddEdge, Grown, Wf, Holds, Edge, Trail, Reaches;
    InBlocks(st);
    var n := |st.blocks|;
    BlockLands(st);
    BlockLands(AddBlock(st));
    var a := AddBlock(AddBlock(st));
    assert Same(AddBlock(st), a, n);
    var s0 := SetCurrent(a, n);
    SameBlocksGrown(a, s0);
    InstructionLands(s0, Jump, id);
    var s1 := AddInstruction(s0, Jump, id);
    EdgeLands(s1, st.current, n);
    var s2 := AddEdge(s1, st.current, n);
    GrownThen(st, AddBlock(st), a);
    GrownThen(st, a, s0);
    GrownThen(st, s0, s1);
    GrownThen(st, s1, s2);
    assert EndOf(s2) == EndOf(st) by { GrownEnd(st, s2); }
    EdgeLands(s2, n, EndOf(st));
    var s3 := AddEdge(s2, n, EndOf(st));
    var r := SetCurrent(s3, n + 1);
    SameBlocksGrown(s3, r);
    GrownThen(s2, s3, r);
    GrownThen(s1, s2, r);
    GrownThen(st, s2, r);
    HoldsMore(s1, r, n, id);
    EdgeMore(s2, r, st.current, n);
    EdgeMore(s3, r, n, EndOf(st));
    Hop(r, st.current, id, n, EndOf(st), M);
  }

  lemma GrownEnd(st: State, r: State)
    requires Wf(st) && Wf(r) && Grown(st, r) && r.stack == st.stack
    ensures EndOf(r) == EndOf(st)
  {
    CfgTelling.EndKept(st, r);
  }

  lemma LeafGoes(s: Stmt, st: State, M: set<NodeId>, env: Env, t: nat, fuel: nat)
    requires Wf(st) && IsOpen(st) && !IsNested(s) && !s.Block? && BuildLeaf(s, st).Ok?
    requires s.Plain? ==> s.id !in M
    ensures var r, run := BuildLeaf(s, st).value, Exec(s, env, t, fuel);
      && Goes(r, st.current, run, M, r.current, st.brk, st.cont, EndOf(st)) && (run.outcome == Normal ==> IsOpen(r))
  {
    hide AddInstruction, BuildJump, BuildReturn, Holds, Trail, Grown, Reaches;
    InBlocks(st);
    match s
    case Plain(id) =>
      Stay(st, st.current);
      StandsOn(st, st.current, id, st.current, M);
    case Simple(id, kind) =>
      InstructionLands(st, kind, id);
      var r := AddInstruction(st, kind, id);
      InBlocks(r);
      Stay(r, r.current);
      StandsOn(r, r.current, id, r.current, M);
    case Break(id) => JumpLands(st, id, Last(st.brk), M);
    case Continue(id) => JumpLands(st, id, Last(st.cont), M);
    case Return(id) => ReturnLands(st, id, M);
  }

  // ----- statements with an inner statement -----

  lemma IfEdgesMore(g: State, h: State, s: Stmt, from: nat, n: nat)
    requires s.If? && Grown(g, h) && IfEdges(g, s, from, n)
    ensures IfEdges(h, s, from, n)
  {
    hide Grown, Holds, Edge, Pruned;
    HoldsMore(g, h, from, s.id);
    EdgeMore(g, h, from, n);
    HoldsMore(g, h, n, s.cond.id);
    if !Pruned(s.cond, false) { EdgeMore(g, h, n, n + 1); }
    if s.alt.NoElse? {
      EdgeMore(g, h, n, n + 3);
    } else {
      HoldsMore(g, h, n + 2, s.alt.id);
      if !Pruned(s.cond, true) { EdgeMore(g, h, n, n + 2); }
    }
  }

  lemma LoopEdgesMore(g: State, h: State, s: Stmt, cont: nat)
    requires IsLoop(s) && Grown(g, h) && LoopEdges(g, s, cont)
    ensures LoopEdges(h, s, cont)
  {
    hide Grown, Holds, Edge, Skips;
    HoldsMore(g, h, cont, GuardId(s));
    if !Skips(s, false) { EdgeMore(g, h, cont, cont + 1); }
    if !Skips(s, true) { EdgeMore(g, h, cont, cont + 2); }
  }

  /** An if statement in the graph: its consequence is built between `inner` and `s1`. */
  ghost predicate IfDone(s: Stmt, st: State, inner: State, s1: State, r: State)
    requires s.If? && Wf(st)
  {
    var n := |st.blocks|;
    && Wf(inner) && IsOpen(inner) && inner.current == n + 1 && Build(s.cons, inner) == Ok(s1)
    && EndOf(inner) == EndOf(st) && inner.brk == st.brk && inner.cont == st.cont
    && Grown(st, inner) && Grown(inner, s1) && Grown(s1, r) && IfEdges(r, s, st.current, n)
    && Wf(r) && r.current == n + 3 && IsOpen(r) && (IsOpen(s1) ==> Edge(r, s1.current, n + 3))
    && (s.alt.ElseClause? ==> Edge(r, n + 2, n + 3))
  }

  lemma IfBuilt(s: Stmt, st: State)
    requires Wf(st) && s.If? && IsOpen(st) && Build(s, st).Ok?
    ensures var inner := Enter(s, st).value; var s1 := Build(s.cons, inner).value;
            IfDone(s, st, inner, s1, Build(s, st).value)
  {
    hide Build, EnterIf, LeaveIf, Wf, Edge, Grown, IfEdges;
    BuildNested(s, st);
    var n, inner := |st.blocks|, Enter(s, st).value;
    IfLands(st, s, ConditionNode(s.cond).value);
    GrownEnd(st, inner);
    var s1 := Build(s.cons, inner).value;
    BuildAround(s.cons, inner);
    assert s1.blocks[n + 2].after == [] && s1.blocks[n + 3].after == [] && |s1.blocks| >= n + 4
        by { AroundTwo(inner, s1, n + 2, n + 3); }
    LeaveIfLands(s1, n, s.alt);
    var r := LeaveIf(s1, n, s.alt);
    GrownThen(inner, s1, r);
    IfEdgesMore(inner, r, s, st.current, n);
  }

  lemma AroundTwo(st: State, r: State, a: nat, b: nat)
    requires Wf(st) && Around(st, r) && a < |st.blocks| && b < |st.blocks| && a != st.current && b != st.current
    ensures |r.blocks| >= |st.blocks| && r.blocks[a].after == st.blocks[a].after
    ensures r.blocks[b].after == st.blocks[b].after && r.current != a && r.current != b
  {
  }

  /** The block of a loop's guard. */
  function GuardAt(s: Stmt, st: State): nat
    requires IsLoop(s)
  {
    if s.While? then |st.blocks| else |st.blocks| + 1
  }

  /** What a loop executes before its guard. */
  function EntryOf(s: Stmt): seq<NodeId>
    requires IsLoop(s)
  {
    if s.While? then [s.id] else [s.id, s.right]
  }

  ghost predicate LoopDone(s: Stmt, st: State, inner: State, s1: State, r: State, M: set<NodeId>)
    requires IsLoop(s) && Wf(st)
  {
    var cont := GuardAt(s, st);
    && Wf(inner) && IsOpen(inner) && inner.current == cont + 1 && Build(s.body, inner) == Ok(s1)
    && EndOf(inner) == EndOf(st) && inner.brk == st.brk + [cont + 2] && inner.cont == st.cont + [cont]
    && Grown(st, inner) && Grown(inner, s1) && Grown(s1, r) && LoopEdges(r, s, cont)
    && Wf(r) && r.current == cont + 2 && IsOpen(r) && (IsOpen(s1) ==> Edge(r, s1.current, cont))
    && Trail(r, st.current, Within(EntryOf(s), M), cont)
  }

  lemma LoopBuilt(s: Stmt, st: State, M: set<NodeId>)
    requires Wf(st) && IsLoop(s) && IsOpen(st) && Build(s, st).Ok?
    ensures var inner := Enter(s, st).value; var s1 := Build(s.body, inner).value;
            LoopDone(s, st, inner, s1, Build(s, st).value, M)
  {
    hide Build, EnterWhile, EnterForIn, LeaveLoop, Wf, Edge, Holds, Grown, LoopEdges, Trail, ForInBase;
    BuildNested(s, st);
    var cont, inner := GuardAt(s, st), Enter(s, st).value;
    LoopLands(s, st, M);
    GrownEnd(st, inner);
    var s1 := Build(s.body, inner).value;
    BuildAround(s.body, inner);
    assert s1.blocks[cont + 2].after == [] && |s1.blocks| >= cont + 3 && s1.current != cont + 2
        by { AroundTwo(inner, s1, cont + 2, cont); }
    LeaveLoopLands(s1, cont, cont + 2);
    var r := LeaveLoop(s1, cont, cont + 2);
    GrownThen(inner, s1, r);
    LoopEdgesMore(inner, r, s, cont);
    TrailMore(inner, r, st.current, Within(EntryOf(s), M), cont);
  }

  lemma LoopLands(s: Stmt, st: State, M: set<NodeId>)
    requires Wf(st) && IsLoop(s) && IsOpen(st) && Enter(s, st).Ok?
    ensures var r, cont := Enter(s, st).value, GuardAt(s, st);
      && Grown(st, r) && LoopEntered(r, s, cont) && r.stack == st.stack
      && r.brk == st.brk + [cont + 2] && r.cont == st.cont + [cont] && (s.ForIn? ==> ForInBase(st) == |st.blocks|)
      && Trail(r, st.current, Within(EntryOf(s), M), cont)
  {
    hide EnterWhile, EnterForIn, Wf, Edge, Holds, Grown, LoopEdges, Trail, ForInBase, Reaches, Within;
    var r, n := Enter(s, st).value, |st.blocks|;
    if s.While? {
      WhileLands(st, s, ConditionNode(s.cond).value);
      HopFrom(r, st.current, s.id, n, M);
    } else {
      ForInLands(st, s);
      HopFrom(r, st.current, s.id, n, M);
      HopFrom(r, n, s.right, n + 1, M);
      TrailThen(r, st.current, Within([s.id], M), n, Within([s.right], M), n + 1);
      WithinJoin([s.id], [s.right], M);
      assert [s.id] + [s.right] == [s.id, s.right];
    }
  }

  /** From a block with a node to the next one. */
  lemma HopFrom(g: State, a: nat, n: NodeId, b: nat, M: set<NodeId>)
    requires Holds(g, a, n) && Edge(g, a, b)
    ensures Trail(g, a, Within([n], M), b)
  {
    hide Trail, Reaches;
    Stay(g, a);
    StandsOn(g, a, n, a, M);
    Along(g, a, b);
    TrailEmpty(g, a, b);
    TrailThen(g, a, Within([n], M), a, [], b);
    assert Within([n], M) + [] == Within([n], M);
  }
}
