/** Which blocks a path leads to while the graph is built, which nodes are recorded only
    elsewhere, and how the edges of each function are counted. */
module CfgReach {
  import opened CfgSyntax
  import opened CfgGraph
  import opened CfgGrowth
  import opened CfgInvariant
  import opened CfgTold
  import opened CfgFlow

  // ----- paths -----

  predicate IsPath(g: State, p: seq<nat>) {
    && p != [] && (forall i :: 0 <= i < |p| ==> p[i] < |g.blocks|)
    && forall i :: 0 <= i < |p| - 1 ==> p[i + 1] in g.blocks[p[i]].after
  }

  ghost predicate Reaches(g: State, a: nat, b: nat) {
    exists p: seq<nat> :: IsPath(g, p) && p[0] == a && Last(p) == b
  }

  ghost function Reachable(g: State, a: nat): set<nat> {
    set b | 0 <= b < |g.blocks| && Reaches(g, a, b)
  }

  /** Every edge out of a block in `R` stays in `R`. */
  predicate Closed(g: State, R: set<nat>) {
    forall b <- R :: b < |g.blocks| && forall x <- g.blocks[b].after :: x in R
  }

  lemma ReachableIsClosed(g: State, a: nat)
    requires Wf(g) && a < |g.blocks|
    ensures a in Reachable(g, a) && Closed(g, Reachable(g, a))
  {
    assert IsPath(g, [a]) && Last([a]) == a;
    forall b, x | b in Reachable(g, a) && x in g.blocks[b].after
      ensures x in Reachable(g, a)
    {
      var p: seq<nat> :| IsPath(g, p) && p[0] == a && Last(p) == b;
      assert BlockInRange(g.blocks[b], |g.blocks|);
      assert IsPath(g, p + [x]) && (p + [x])[0] == a && Last(p + [x]) == x;
    }
  }

  /** Reachable blocks are the least closed set around their start. */
  lemma {:induction false} ReachableIsLeast(g: State, a: nat, b: nat, R: set<nat>, p: seq<nat>)
    requires Closed(g, R) && a in R && IsPath(g, p) && p[0] == a && Last(p) == b
    ensures b in R
    decreases |p|
  {
    if |p| > 1 {
      var q := p[..|p| - 1];
      assert IsPath(g, q);
      assert Last(p) in g.blocks[Last(q)].after;
      ReachableIsLeast(g, a, Last(q), R, q);
    }
  }

  // ----- the blocks that are reached -----

  /** The blocks that a path from the start of some function leads to. */
  ghost function Reach(st: State): set<nat> {
    set b | 0 <= b < |st.blocks| && IsReached(st, b)
  }

  ghost predicate IsReached(st: State, b: nat) {
    exists f :: 0 <= f < |st.funs| && Reaches(st, st.funs[f].start, b)
  }

  ghost predicate HoldsStarts(st: State, R: set<nat>) {
    forall f :: 0 <= f < |st.funs| ==> st.funs[f].start in R
  }

  lemma ReachIsClosed(st: State)
    requires Wf(st)
    ensures Closed(st, Reach(st)) && HoldsStarts(st, Reach(st))
  {
    hide Reaches;
    forall f | 0 <= f < |st.funs|
      ensures st.funs[f].start in Reach(st)
    {
      StartReached(st, f, st.funs[f].start);
    }
    forall b, x | b in Reach(st) && x in st.blocks[b].after
      ensures x in Reach(st)
    {
      var f :| 0 <= f < |st.funs| && Reaches(st, st.funs[f].start, b);
      StartReached(st, f, b);
    }
  }

  lemma StartReached(st: State, f: nat, b: nat)
    requires Wf(st) && f < |st.funs| && b < |st.blocks|
    ensures IsReached(st, st.funs[f].start) && st.funs[f].start < |st.blocks|
    ensures Reaches(st, st.funs[f].start, b) ==>
              forall x <- st.blocks[b].after :: x < |st.blocks| && IsReached(st, x)
  {
    assert FunInRange(st.funs[f], |st.blocks|) && BlockInRange(st.blocks[b], |st.blocks|);
    ReachableIsClosed(st, st.funs[f].start);
    hide Reaches;
    assert Reaches(st, st.funs[f].start, b) ==> b in Reachable(st, st.funs[f].start);
    assert st.funs[f].start in Reachable(st, st.funs[f].start);
  }

  lemma ReachIsLeast(st: State, R: set<nat>)
    requires Closed(st, R) && HoldsStarts(st, R)
    ensures Reach(st) <= R
  {
    forall b | b in Reach(st)
      ensures b in R
    {
      var f :| 0 <= f < |st.funs| && Reaches(st, st.funs[f].start, b);
      var p: seq<nat> :| IsPath(st, p) && p[0] == st.funs[f].start && Last(p) == b;
      ReachableIsLeast(st, st.funs[f].start, b, R, p);
    }
  }

  /** Edges and starts are only added. */
  predicate Extends(st: State, r: State) {
    && |st.blocks| <= |r.blocks| && |st.funs| <= |r.funs|
    && (forall f :: 0 <= f < |st.funs| ==> r.funs[f].start == st.funs[f].start)
    && forall b :: 0 <= b < |st.blocks| ==> st.blocks[b].after <= r.blocks[b].after
  }

  lemma ReachKept(st: State, r: State)
    requires Wf(st) && Wf(r) && Extends(st, r)
    ensures Reach(st) <= Reach(r)
  {
    hide Reach;
    ReachIsClosed(r);
    var R := set b <- Reach(r) | b < |st.blocks|;
    assert forall f :: 0 <= f < |st.funs| ==> FunInRange(st.funs[f], |st.blocks|);
    forall b, x | b in R && x in st.blocks[b].after
      ensures x in R
    {
      assert BlockInRange(st.blocks[b], |st.blocks|);
      assert x in r.blocks[b].after;
    }
    ReachIsLeast(st, R);
  }

  /** A step that reaches the blocks in `N` besides. */
  lemma ReachGrew(st: State, r: State, N: set<nat>)
    requires Wf(st) && Wf(r) && Extends(st, r) && N <= Reach(r)
    requires forall f :: |st.funs| <= f < |r.funs| ==> r.funs[f].start in N
    requires forall b, x :: b in Reach(st) + N && b < |r.blocks| && x in r.blocks[b].after ==> x in Reach(st) + N
    ensures Reach(r) == Reach(st) + N
  {
    ReachKept(st, r);
    ReachIsClosed(st);
    assert forall b <- N :: b < |r.blocks|;
    ReachIsLeast(r, Reach(st) + N);
  }

  /** The blocks of a function that are reached. */
  ghost function Own(st: State, k: nat): set<nat> {
    set b <- Reach(st) | b < |st.blocks| && st.blocks[b].fn == k
  }

  /** In a finished graph these are the blocks that its own start reaches. */
  lemma OwnIsReachable(g: State, k: nat)
    requires Wf(g) && Owned(g) && k < |g.funs|
    ensures Own(g, k) == Reachable(g, g.funs[k].start)
  {
    hide Owned, Reaches;
    forall b: nat, f: nat | b < |g.blocks| && f < |g.funs| && Reaches(g, g.funs[f].start, b)
      ensures g.blocks[b].fn == f
    {
      PathOwned(g, f, b);
    }
  }

  lemma PathOwned(g: State, f: nat, b: nat)
    requires Wf(g) && Owned(g) && f < |g.funs| && b < |g.blocks| && Reaches(g, g.funs[f].start, b)
    ensures g.blocks[b].fn == f
  {
    var R := set x: nat | x < |g.blocks| && g.blocks[x].fn == f;
    assert FunOwns(g, f);
    forall x, y | x in R && y in g.blocks[x].after
      ensures y in R
    {
      assert BlockOwned(g, x);
    }
    var p: seq<nat> :| IsPath(g, p) && p[0] == g.funs[f].start && Last(p) == b;
    ReachableIsLeast(g, g.funs[f].start, b, R, p);
  }

  // ----- the nodes that are recorded only elsewhere -----

  /** The nodes recorded in a block that no path leads to. */
  ghost function Missed(st: State): set<NodeId> {
    set b, n | 0 <= b < |st.blocks| && b !in Reach(st) && n in Nodes(st.blocks[b]) :: n
  }

  function Nodes(b: Vertex): set<NodeId> {
    (if b.node.Some? then {b.node.value} else {}) + set i | 0 <= i < |b.code| :: b.code[i].node
  }

  lemma NodesAreMentioned(b: Vertex, n: NodeId)
    ensures n in Nodes(b) <==> Mentions(b, n)
  {
  }

  // ----- edges minus blocks -----

  /** Edges out of the blocks of `L` minus the number of these blocks, up to block n. */
  function Excess(bs: seq<Vertex>, L: set<nat>, n: nat): int
    requires n <= |bs|
  {
    if n == 0 then 0 else Excess(bs, L, n - 1) + if n - 1 in L then |bs[n - 1].after| - 1 else 0
  }

  /** One more edge from block `a` counts once if `a` is in the set. */
  lemma {:induction false} ExcessChanged(bs: seq<Vertex>, bs': seq<Vertex>, L: set<nat>, a: nat, n: nat)
    requires n <= |bs| && n <= |bs'|
    requires forall b :: 0 <= b < n && b != a && b in L ==> |bs[b].after| == |bs'[b].after|
    ensures Excess(bs', L, n) == Excess(bs, L, n) + if a < n && a in L then |bs'[a].after| - |bs[a].after| else 0
  {
    if n != 0 {
      ExcessChanged(bs, bs', L, a, n - 1);
    }
  }

  lemma {:induction false} ExcessWith(bs: seq<Vertex>, L: set<nat>, b: nat, n: nat)
    requires n <= |bs| && b !in L
    ensures Excess(bs, L + {b}, n) == Excess(bs, L, n) + if b < n then |bs[b].after| - 1 else 0
  {
    if n != 0 {
      ExcessWith(bs, L, b, n - 1);
    }
  }

  lemma {:induction false} ExcessBeyond(bs: seq<Vertex>, L: set<nat>, m: nat, n: nat)
    requires m <= n <= |bs| && Below(L, m)
    ensures Excess(bs, L, n) == Excess(bs, L, m)
    decreases n - m
  {
    if m != n {
      ExcessBeyond(bs, L, m, n - 1);
    }
  }

  predicate Below(X: set<nat>, n: nat) {
    forall x <- X :: x < n
  }

  /** The excess of a set of blocks in a graph. */
  function Total(st: State, L: set<nat>): int {
    Excess(st.blocks, L, |st.blocks|)
  }

  /** What `CalculateCyclomaticComplexity` computes for function number `k`: edges
      minus blocks plus two, over the blocks reachable from its start. */
  function Complexity(g: State, reachable: set<nat>): int {
    Total(g, reachable) + 2
  }

  /** The edges out of a function's reached blocks, less these blocks, those in `X`
      excepted. */
  ghost function Weight(st: State, k: nat, X: set<nat>): int {
    Total(st, Own(st, k)) + |Own(st, k) * X|
  }

  /** Excepting one more block. */
  lemma WeightExcept(st: State, k: nat, X: set<nat>, b: nat)
    requires b !in X
    ensures Weight(st, k, X + {b}) == Weight(st, k, X) + if b in Own(st, k) then 1 else 0
  {
    hide Own, Excess;
    var O := Own(st, k);
    OneMore(X, O, b);
    assert O * (X + {b}) == (X + {b}) * O && O * X == X * O;
  }

  lemma OneMore(O: set<nat>, X: set<nat>, b: nat)
    requires b !in O
    ensures |(O + {b}) * X| == |O * X| + if b in X then 1 else 0
  {
    assert (O + {b}) * X == O * X + if b in X then {b} else {};
  }

  /** The blocks changed are not the function's. */
  lemma WeightSame(st: State, r: State, k: nat, X: set<nat>)
    requires |st.blocks| <= |r.blocks| && Own(r, k) == Own(st, k)
    requires forall b <- Own(st, k) :: b < |st.blocks| && |r.blocks[b].after| == |st.blocks[b].after|
    ensures Weight(r, k, X) == Weight(st, k, X)
  {
    hide Own;
    ExcessBeyond(r.blocks, Own(r, k), |st.blocks|, |r.blocks|);
    ExcessChanged(st.blocks, r.blocks, Own(st, k), |st.blocks|, |st.blocks|);
  }

  // ----- what a step sees of a block -----

  /** Is a block reached, without successors, without nodes, of the current function? */
  datatype View = View(reached: bool, open: bool, blank: bool, mine: bool)

  ghost function Look(st: State, b: nat): View
    requires Wf(st) && b < |st.blocks|
  {
    View(b in Reach(st), st.blocks[b].after == [], Quiet(st, b), OfCurrentFun(st, b))
  }

  ghost predicate SameLook(st: State, r: State, b: nat) {
    Wf(st) && Wf(r) && b < |st.blocks| && b < |r.blocks| && Look(r, b) == Look(st, b)
  }

  ghost predicate SameLooks(st: State, r: State, but: nat) {
    |st.blocks| <= |r.blocks| && forall b: nat :: b < |st.blocks| && b != but ==> SameLook(st, r, b)
  }

  ghost predicate Others(st: State, r: State)
    requires Wf(st)
  {
    forall j: nat, Y: set<nat> {:trigger Weight(r, j, Y)} ::
      j < |st.funs| && j != CurrentFun(st) ==> Weight(r, j, Y) == Weight(st, j, Y)
  }

  /** A step inside the current function: the nodes it misses, and what it adds to the
      function's weight. */
  ghost predicate Step(st: State, r: State, missed: set<NodeId>, X: set<nat>, weight: int) {
    && Wf(st) && Wf(r) && |st.blocks| <= |r.blocks| && |st.funs| <= |r.funs| && r.stack == st.stack
    && Missed(r) == Missed(st) + missed && Others(st, r)
    && Weight(r, CurrentFun(st), X) == Weight(st, CurrentFun(st), X) + weight
  }

  lemma StepThen(a: State, b: State, c: State, m1: set<NodeId>, m2: set<NodeId>, m: set<NodeId>, X: set<nat>,
      w1: int, w2: int)
    requires Step(a, b, m1, X, w1) && Step(b, c, m2, X, w2) && m == m1 + m2
    ensures Step(a, c, m, X, w1 + w2)
  {
    hide Missed, Weight, Wf;
  }

  /** A step that adds no edge to a function's reached blocks, and reaches none. */
  lemma StillStep(st: State, r: State, missed: set<NodeId>, X: set<nat>)
    requires Wf(st) && Wf(r) && |st.blocks| <= |r.blocks| && |st.funs| <= |r.funs| && r.stack == st.stack
    requires forall b: nat :: b < |st.blocks| ==> r.blocks[b].fn == st.blocks[b].fn
    requires forall b: nat :: b < |st.blocks| && b in Reach(st) ==> r.blocks[b].after == st.blocks[b].after
    requires Reach(r) == Reach(st) && Missed(r) == Missed(st) + missed
    ensures Step(st, r, missed, X, 0)
  {
    hide Weight, Missed, Wf;
    forall j: nat, Y: set<nat>
      ensures Weight(r, j, Y) == Weight(st, j, Y)
    {
      ReachWithin(st);
      assert Own(r, j) == Own(st, j) by { hide Reach; }
      WeightSame(st, r, j, Y);
    }
  }

  lemma ReachWithin(st: State)
    ensures forall b <- Reach(st) :: b < |st.blocks|
  {
  }

  // ----- primitive steps -----

  /** A block that no step has touched. */
  lemma LookKept(st: State, r: State, b: nat)
    requires Wf(st) && Wf(r) && b < |st.blocks| && b < |r.blocks| && r.stack == st.stack
    requires b in Reach(r) <==> b in Reach(st)
    requires var x, y := st.blocks[b], r.blocks[b];
      y.after == x.after && y.code == x.code && y.node == x.node && y.fn == x.fn
    ensures SameLook(st, r, b)
  {
  }

  lemma AddBlockStep(st: State, X: set<nat>)
    requires Wf(st)
    ensures var r, n := AddBlock(st), |st.blocks|;
      && Step(st, r, {}, X, 0) && Reach(r) == Reach(st) && SameLooks(st, r, n)
      && Look(r, n) == View(false, true, true, true)
  {
    hide Reach, Missed, SameLook, Step, Closed, HoldsStarts;
    var r, n := AddBlock(st), |st.blocks|;
    assert forall b: nat :: b < n ==> r.blocks[b] == st.blocks[b];
    AddBlockReach(st);
    MissedSame(st, r);
    StillStep(st, r, {}, X);
    ReachWithin(st);
    forall b: nat | b < n
      ensures SameLook(st, r, b)
    {
      LookKept(st, r, b);
    }
  }

  lemma AddBlockReach(st: State)
    requires Wf(st)
    ensures Reach(AddBlock(st)) == Reach(st)
  {
    hide Reach;
    var r := AddBlock(st);
    ReachWithin(st);
    ReachIsClosed(st);
    ReachGrew(st, r, {});
  }

  /** Blocks are told by their nodes alone. */
  lemma MissedSame(st: State, r: State)
    requires |st.blocks| <= |r.blocks| && Reach(r) == Reach(st)
    requires forall b :: 0 <= b < |st.blocks| ==> Nodes(r.blocks[b]) == Nodes(st.blocks[b])
    requires forall b :: |st.blocks| <= b < |r.blocks| ==> Nodes(r.blocks[b]) == {}
    ensures Missed(r) == Missed(st)
  {
    hide Reach, Nodes;
  }

  /** Steps that touch no edge. */
  lemma SameEdgesReach(st: State, r: State)
    requires Wf(st) && Wf(r) && |r.blocks| == |st.blocks| && |r.funs| == |st.funs|
    requires forall f :: 0 <= f < |st.funs| ==> r.funs[f].start == st.funs[f].start
    requires forall b :: 0 <= b < |st.blocks| ==> r.blocks[b].after == st.blocks[b].after
    ensures Reach(r) == Reach(st)
  {
    hide Reach;
    ReachWithin(st);
    ReachIsClosed(st);
    ReachGrew(st, r, {});
  }

  /** One block is given a node. */
  lemma MissedOne(st: State, r: State, c: nat, node: NodeId)
    requires |r.blocks| == |st.blocks| && c < |st.blocks| && Reach(r) == Reach(st)
    requires forall b: nat :: b < |st.blocks| && b != c ==> Nodes(r.blocks[b]) == Nodes(st.blocks[b])
    requires c in Reach(st) || Nodes(r.blocks[c]) == Nodes(st.blocks[c]) + {node}
    ensures Missed(r) == Missed(st) + Only(c !in Reach(st), node)
  {
    hide Reach, Nodes;
  }

  lemma SetNodeStep(st: State, b: nat, node: NodeId, X: set<nat>)
    requires Wf(st) && b < |st.blocks| && (Look(st, b).reached || Look(st, b).blank)
    ensures var r, v := SetNode(st, b, node), Look(st, b);
      && Step(st, r, Only(!v.reached, node), X, 0) && Reach(r) == Reach(st) && SameLooks(st, r, b)
      && Look(r, b) == v.(blank := false) && r.current == st.current
  {
    hide Reach, Missed, SameLook, Step;
    var r := SetNode(st, b, node);
    SameEdgesReach(st, r);
    MissedOne(st, r, b, node);
    StillStep(st, r, Only(b !in Reach(st), node), X);
    forall x: nat | x < |st.blocks| && x != b
      ensures SameLook(st, r, x)
    {
      LookKept(st, r, x);
    }
  }

  lemma SetCurrentStep(st: State, b: nat, X: set<nat>)
    requires Wf(st) && b < |st.blocks|
    ensures var r := SetCurrent(st, b);
      && Step(st, r, {}, X, 0) && Reach(r) == Reach(st) && SameLooks(st, r, |st.blocks|)
  {
    SameGraphStep(st, SetCurrent(st, b), X);
  }

  /** The cursor and the loops around it are no part of the graph. */
  lemma SameGraphStep(st: State, r: State, X: set<nat>)
    requires Wf(st) && Wf(r) && r.blocks == st.blocks && r.funs == st.funs && r.stack == st.stack
    ensures Step(st, r, {}, X, 0) && Reach(r) == Reach(st) && SameLooks(st, r, |st.blocks|)
  {
    hide Reach, Missed, SameLook, Step;
    SameEdgesReach(st, r);
    MissedSame(st, r);
    StillStep(st, r, {}, X);
    forall x: nat | x < |st.blocks|
      ensures SameLook(st, r, x)
    {
      LookKept(st, r, x);
    }
  }

  lemma AppendCodeStep(st: State, kind: InstructionKind, node: NodeId, X: set<nat>)
    requires Wf(st)
    ensures var r, c := AppendCode(st, kind, node), st.current; var v := Look(st, c);
      && Step(st, r, Only(!v.reached, node), X, 0) && Reach(r) == Reach(st) && SameLooks(st, r, c)
      && Look(r, c) == v.(blank := false)
  {
    hide Reach, Missed, SameLook, Step;
    var r, c := AppendCode(st, kind, node), st.current;
    SameEdgesReach(st, r);
    assert Nodes(r.blocks[c]) == Nodes(st.blocks[c]) + {node} by {
      hide *;
      CodeNodes(st.blocks[c], Instruction(kind, node));
    }
    MissedOne(st, r, c, node);
    StillStep(st, r, Only(c !in Reach(st), node), X);
    forall x: nat | x < |st.blocks| && x != c
      ensures SameLook(st, r, x)
    {
      LookKept(st, r, x);
    }
  }

  lemma CodeNodes(b: Vertex, i: Instruction)
    ensures Nodes(b.(code := b.code + [i])) == Nodes(b) + {i.node}
  {
    var y := b.(code := b.code + [i]);
    forall n: NodeId
      ensures n in Nodes(y) <==> n in Nodes(b) + {i.node}
    {
      assert y.code[|b.code|] == i;
      if k: nat :| k < |b.code| && b.code[k].node == n {
        assert y.code[k] == b.code[k];
      }
    }
  }

  ghost function CursorOf(st: State): Cursor
    requires Wf(st)
  {
    Cursor(Look(st, st.current).reached, Look(st, st.current).open)
  }

  lemma AddInstructionStep(st: State, kind: InstructionKind, node: NodeId, X: set<nat>)
    requires Wf(st) && OfCurrentFun(st, st.current)
    ensures var r, o := AddInstruction(st, kind, node), Opened(CursorOf(st)); var c := r.current;
      && Step(st, r, Only(!o.reached, node), X, 0) && Reach(r) == Reach(st) && SameLooks(st, r, c)
      && c == (if CursorOf(st).open then st.current else |st.blocks|) && c < |r.blocks|
      && Look(r, c) == View(o.reached, true, false, true)
  {
    hide AppendCode, AddBlock, SetCurrent, SameLook, Step, Reach, Wf;
    var open := OpenBlock(st);
    if CursorOf(st).open {
      AppendCodeStep(st, kind, node, X);
    } else {
      var added := AddBlock(st);
      AddBlockStep(st, X);
      SetCurrentStep(added, |st.blocks|, X);
      assert SameLook(added, open, |st.blocks|);
      AppendCodeStep(open, kind, node, X);
      var r := AppendCode(open, kind, node);
      StepThen(st, added, open, {}, {}, {}, X, 0, 0);
      StepThen(st, open, r, {}, Only(true, node), Only(true, node), X, 0, 0);
      forall b: nat | b < |st.blocks|
        ensures SameLook(st, r, b)
      {
        SameLookThen(st, added, open, b);
        SameLookThen(st, open, r, b);
      }
    }
  }

  lemma SameLookThen(a: State, b: State, c: State, x: nat)
    requires SameLook(a, b, x) && SameLook(b, c, x)
    ensures SameLook(a, c, x)
  {
    hide Look, Wf;
  }

  /** The block that an edge leads to is reached if the block it leaves is. */
  lemma AddEdgeReach(st: State, a: nat, b: nat)
    requires Wf(st) && a < |st.blocks| && b < |st.blocks| && a != b
    requires a in Reach(st) ==> b in Reach(st) || st.blocks[b].after == []
    ensures Reach(AddEdge(st, a, b)) == Reach(st) + if a in Reach(st) then {b} else {}
  {
    hide Reach, Wf;
    var r := AddEdge(st, a, b);
    var N := if a in Reach(st) then {b} else {};
    EdgeView(st, a, b);
    ReachKept(st, r);
    ReachIsClosed(r);
    ReachIsClosed(st);
    ReachWithin(st);
    assert b in r.blocks[a].after;
    ReachGrew(st, r, N);
  }

  lemma EdgeView(st: State, a: nat, b: nat)
    requires Wf(st) && a < |st.blocks| && b < |st.blocks|
    ensures var r := AddEdge(st, a, b);
      && |r.blocks| == |st.blocks| && r.current == st.current && r.funs == st.funs && Extends(st, r)
      && (forall x: nat :: x < |st.blocks| ==> Nodes(r.blocks[x]) == Nodes(st.blocks[x]))
      && (forall x: nat :: x < |st.blocks| ==> r.blocks[x].fn == st.blocks[x].fn)
      && (forall x: nat :: x < |st.blocks| && x != a ==> r.blocks[x].after == st.blocks[x].after)
      && r.blocks[a].after == st.blocks[a].after + [b]
  {
  }

  lemma AddEdgeMissed(st: State, a: nat, b: nat)
    requires Wf(st) && a < |st.blocks| && b < |st.blocks| && a != b
    requires a in Reach(st) ==> b in Reach(st) || (st.blocks[b].after == [] && Quiet(st, b))
    ensures Missed(AddEdge(st, a, b)) == Missed(st)
  {
    hide Reach, Wf, Nodes, AddEdge;
    var r := AddEdge(st, a, b);
    EdgeView(st, a, b);
    AddEdgeReach(st, a, b);
    assert Quiet(st, b) ==> Nodes(st.blocks[b]) == {} by { QuietNodes(st, b); }
  }

  lemma QuietNodes(st: State, b: nat)
    requires b < |st.blocks|
    ensures Quiet(st, b) ==> Nodes(st.blocks[b]) == {}
  {
  }

  /** The edge changes what its own function reaches. */
  lemma AddEdgeOwn(st: State, a: nat, b: nat, j: nat)
    requires Wf(st) && a < |st.blocks| && b < |st.blocks| && a != b && st.blocks[a].fn == st.blocks[b].fn
    requires a in Reach(st) ==> b in Reach(st) || st.blocks[b].after == []
    ensures Own(AddEdge(st, a, b), j) == Own(st, j) + if j == st.blocks[a].fn && a in Reach(st) then {b} else {}
  {
    AddEdgeReach(st, a, b);
    EdgeView(st, a, b);
    hide Reach, AddEdge, Wf;
  }

  lemma AddEdgeElsewhere(st: State, a: nat, b: nat, j: nat, Y: set<nat>)
    requires Wf(st) && a < |st.blocks| && b < |st.blocks| && a != b && st.blocks[a].fn == st.blocks[b].fn != j
    requires a in Reach(st) ==> b in Reach(st) || st.blocks[b].after == []
    ensures Weight(AddEdge(st, a, b), j, Y) == Weight(st, j, Y)
  {
    hide Reach, AddEdge, Wf, Weight;
    AddEdgeOwn(st, a, b, j);
    EdgeView(st, a, b);
    WeightSame(st, AddEdge(st, a, b), j, Y);
  }

  /** What an edge from a reached block adds to the weight of its function. */
  lemma AddEdgeWeight(st: State, a: nat, b: nat, X: set<nat>)
    requires Wf(st) && a < |st.blocks| && b < |st.blocks| && a != b && st.blocks[a].fn == st.blocks[b].fn
    requires a in Reach(st) ==> b in Reach(st) || st.blocks[b].after == []
    ensures Weight(AddEdge(st, a, b), st.blocks[a].fn, X) == Weight(st, st.blocks[a].fn, X)
              + if a in Reach(st) then Count(b in Reach(st) || b in X) else 0
  {
    var r, k := AddEdge(st, a, b), st.blocks[a].fn;
    AddEdgeOwn(st, a, b, k);
    EdgeView(st, a, b);
    var O := Own(st, k);
    assert a in Reach(st) <==> a in O;
    assert b in Reach(st) <==> b in O;
    hide Own, Reach, AddEdge, Wf, Excess;
    ExcessChanged(st.blocks, r.blocks, O, a, |st.blocks|);
    if a in O && b !in O {
      ExcessWith(r.blocks, O, b, |st.blocks|);
      OneMore(O, X, b);
    } else {
      assert Own(r, k) == O;
    }
  }

  lemma AddEdgeStep(st: State, a: nat, b: nat, X: set<nat>)
    requires Wf(st) && a < |st.blocks| && b < |st.blocks| && a != b && Look(st, a).mine && Look(st, b).mine
    requires Look(st, a).reached ==> Look(st, b).reached || (Look(st, b).open && Look(st, b).blank)
    ensures var r, v, w := AddEdge(st, a, b), Look(st, a), Look(st, b);
      && Step(st, r, {}, X, if v.reached then Count(w.reached || b in X) else 0)
      && Reach(r) == Reach(st) + (if v.reached then {b} else {})
      && Look(r, a) == v.(open := false) && Look(r, b) == w.(reached := w.reached || v.reached)
      && (forall x: nat :: x < |st.blocks| && x != a && x != b ==> SameLook(st, r, x)) && r.current == st.current
  {
    hide Reach, Missed, Weight, SameLook;
    AddEdgeReach(st, a, b);
    AddEdgeMissed(st, a, b);
    AddEdgeWeight(st, a, b, X);
    var r := AddEdge(st, a, b);
    forall j: nat, Y: set<nat> | j < |st.funs| && j != CurrentFun(st)
      ensures Weight(r, j, Y) == Weight(st, j, Y)
    {
      AddEdgeElsewhere(st, a, b, j, Y);
    }
    forall x: nat | x < |st.blocks| && x != a && x != b
      ensures SameLook(st, r, x)
    {
      LookKept(st, r, x);
    }
  }
}
