/** The unreachable-code report and the theorem about it. */
module CfgReport {
  import opened Options
  import opened CfgSyntax
  import opened CfgGraph
  import opened CfgGrowth
  import opened CfgInvariant
  import opened CfgRuns
  import opened CfgTold
  import opened CfgTelling
  import opened CfgHonest
  import opened CfgFlow
  import opened CfgReach
  import opened CfgRecords
  import opened CfgFollowed

  // ----- the report -----

  predicate Unreached(g: State, fun: Fun, b: nat)
    requires b < |g.blocks|
  {
    g.blocks[b].before == [] && b != fun.start
  }

  function ReportBlocks(g: State, fun: Fun, bs: seq<nat>): seq<NodeId>
    requires InRange(bs, |g.blocks|)
  {
    if bs == [] then [] else
      var front := ReportBlocks(g, fun, bs[..|bs| - 1]);
      var b := Last(bs);
      if Unreached(g, fun, b) && ReportNode(g.blocks[b]).Some? then front + [ReportNode(g.blocks[b]).value] else front
  }

  /** `analyseCfg` without the complexity part: nodes reported as unreachable code. */
  function Report(g: State, n: nat): seq<NodeId>
    requires Wf(g) && n <= |g.funs|
  {
    if n == 0 then [] else
      assert FunInRange(g.funs[n - 1], |g.blocks|);
      Report(g, n - 1) + ReportBlocks(g, g.funs[n - 1], g.funs[n - 1].blocks)
  }

  lemma {:induction false} ReportBlocksMeaning(g: State, fun: Fun, bs: seq<nat>, n: NodeId)
    requires InRange(bs, |g.blocks|)
    ensures n in ReportBlocks(g, fun, bs) <==>
            exists b :: 0 <= b < |g.blocks| && b in bs && Unreached(g, fun, b) && ReportNode(g.blocks[b]) == Some(n)
  {
    if bs != [] {
      ReportBlocksMeaning(g, fun, bs[..|bs| - 1], n);
      assert bs == bs[..|bs| - 1] + [Last(bs)];
    }
  }

  lemma {:induction false} ReportMeaning(g: State, k: nat, n: NodeId)
    requires Wf(g) && k <= |g.funs|
    ensures n in Report(g, k) <==>
            exists f, b :: 0 <= f < k && 0 <= b < |g.blocks| && b in g.funs[f].blocks &&
              Unreached(g, g.funs[f], b) && ReportNode(g.blocks[b]) == Some(n)
  {
    if k > 0 {
      ReportMeaning(g, k - 1, n);
      assert FunInRange(g.funs[k - 1], |g.blocks|);
      ReportBlocksMeaning(g, g.funs[k - 1], g.funs[k - 1].blocks, n);
    }
  }

  // ----- what the finished graph reports -----

  lemma NobodyBefore(st: State, b: nat)
    requires Wf(st) && Dual(st) && b < |st.blocks|
    ensures st.blocks[b].before == [] <==> !HasWayIn(st, b)
  {
    var m := multiset(st.blocks[b].before);
    assert BlockInRange(st.blocks[b], |st.blocks|);
    if st.blocks[b].before != [] {
      var a := st.blocks[b].before[0];
      assert a in m;
      assert multiset(st.blocks[a].after)[b] == m[a] > 0;
    }
    if a: nat :| a < |st.blocks| && b in st.blocks[a].after {
      assert b in multiset(st.blocks[a].after);
      assert m[a] == multiset(st.blocks[a].after)[b] > 0;
    }
  }

  lemma OwnStart(g: State, f: nat, b: nat)
    requires Owned(g) && f < |g.funs| && b in g.funs[f].blocks
    ensures b == g.funs[f].start <==> IsStart(g, b)
  {
    assert FunOwns(g, f);
    if k: nat :| k < |g.funs| && g.funs[k].start == b {
      assert FunOwns(g, k);
    }
  }

  /** In a finished graph exactly the nodes told while it was built are reported. */
  lemma ReportedIsTold(g: State, n: NodeId)
    requires Good(g)
    ensures n in Report(g, |g.funs|) <==> n in Told(g)
  {
    hide Dual, Owned, Wf, HasWayIn, IsStart, Report, Told;
    ReportMeaning(g, |g.funs|, n);
    forall f: nat, b: nat | f < |g.funs| && b < |g.blocks| && b in g.funs[f].blocks
      ensures Unreached(g, g.funs[f], b) <==> !HasWayIn(g, b) && !IsStart(g, b)
    {
      NobodyBefore(g, b);
      OwnStart(g, f, b);
    }
    ToldMeaning(g, n);
    if b: nat :| b < |g.blocks| && !HasWayIn(g, b) && !IsStart(g, b) && ReportNode(g.blocks[b]) == Some(n) {
      OwnerKnown(g, b);
      var f := g.blocks[b].fn;
      assert Unreached(g, g.funs[f], b) && b in g.funs[f].blocks;
    }
  }

  lemma OwnerKnown(g: State, b: nat)
    requires Owned(g) && b < |g.blocks|
    ensures g.blocks[b].fn < |g.funs| && b in g.funs[g.blocks[b].fn].blocks
  {
    assert BlockOwned(g, b);
  }

  lemma ToldMeaning(g: State, n: NodeId)
    ensures n in Told(g) <==> exists b: nat :: b < |g.blocks| && !HasWayIn(g, b) && !IsStart(g, b)
                                               && ReportNode(g.blocks[b]) == Some(n)
  {
  }

  /** The report of a program, read off its syntax. */
  lemma ProgramReport(id: NodeId, ss: Stmts, n: NodeId)
    requires WellNestedAll(ss, false) && BuildProgram(id, ss).Ok?
    ensures var g := BuildProgram(id, ss).value; Wf(g) && (n in Report(g, |g.funs|) <==> n in ReportedTop(ss, false))
  {
    hide BuildProgram, Dual, Owned, Wf, Told, Report, OfCurrentFun;
    BuildProgramKeeps(id, ss);
    ReportedIsTold(BuildProgram(id, ss).value, n);
    ProgramTold(id, ss);
    ExpandedReports(ss, false);
  }

  // ----- the theorems -----

  /** The unreachable-code report of a program is right if and only if the program is
      honest: the builder loses the way to no statement that it reports and that a run
      can get to.  Right means that whatever its conditions evaluate to, and however long
      it runs, neither the program nor any function that is set up executes a node that
      is reported. */
  lemma UnreachableIsNeverExecuted(id: NodeId, ss: Stmts)
    requires UniqueIdsAll(ss) && WellNestedAll(ss, false) && BuildProgram(id, ss).Ok?
    ensures var g := BuildProgram(id, ss).value;
            Wf(g) && (HonestProgram(ss) <==> forall n <- Report(g, |g.funs|) :: NeverExecuted(ss, n))
  {
    hide BuildProgram, Wf, Report, NeverExecuted, HonestTop, ReportedTop, DoesAll;
    var g := BuildProgram(id, ss).value;
    ProgramReport(id, ss, 0);
    HonestExactlyTop(ss, false, true);
    forall n: NodeId
      ensures n in Report(g, |g.funs|) <==> n in ReportedTop(ss, false)
      ensures NeverExecuted(ss, n) <==> n !in DoesAll(ss, true)
    {
      ProgramReport(id, ss, n);
      ExecutedExactly(ss, n);
    }
  }

  /** In particular it is right where the builder sees every jump: no `break` leaves an
      else body to end a loop whose condition is constantly true, no function expression
      is built inline, no declaration stands where the way is lost, and no body of a
      top-level declaration loses it. */
  lemma TraceableIsNeverExecuted(id: NodeId, ss: Stmts)
    requires UniqueIdsAll(ss) && WellNestedAll(ss, false) && BuildProgram(id, ss).Ok?
    requires TraceableAll(ss, false) && HoistsFound(ss, false) && DeclarationsPass(ss)
    ensures var g := BuildProgram(id, ss).value; Wf(g) && forall n <- Report(g, |g.funs|) :: NeverExecuted(ss, n)
  {
    hide BuildProgram, Wf, Report, NeverExecuted, HonestTop, UniqueIdsAll, WellNestedAll, TraceableAll;
    TraceableProgramHonest(ss, false, true);
    UnreachableIsNeverExecuted(id, ss);
  }

  // ----- runs and paths -----

  /** Every run follows the edges of function `k`: a node that is executed is recorded only
      in blocks that a path from the function's start leads to. */
  ghost predicate Follows(g: State, ss: Stmts, k: nat)
    requires k < |g.funs|
  {
    forall b: nat, n: NodeId {:trigger Mentions(g.blocks[b], n)} ::
      b < |g.blocks| && b in g.funs[k].blocks && Mentions(g.blocks[b], n) && !NeverExecuted(ss, n) ==>
        b in Reachable(g, g.funs[k].start)
  }

  /** Paths from the function's own start, and only they, lead to its blocks. */
  lemma OwnPaths(g: State, k: nat, b: nat)
    requires Wf(g) && Owned(g) && b < |g.blocks| && k < |g.funs| && b in g.funs[k].blocks
    ensures b in Reach(g) <==> b in Reachable(g, g.funs[k].start)
  {
    hide Reach, Reachable;
    OwnIsReachable(g, k);
    assert FunOwns(g, k);
  }

  lemma MissedMeaning(g: State, n: NodeId)
    ensures n in Missed(g) <==> exists b: nat :: b < |g.blocks| && b !in Reach(g) && Mentions(g.blocks[b], n)
  {
    forall b: nat | b < |g.blocks|
      ensures n in Nodes(g.blocks[b]) <==> Mentions(g.blocks[b], n)
    {
      NodesAreMentioned(g.blocks[b], n);
    }
    hide Reach, Nodes, Mentions;
  }

  lemma FollowsMeaning(g: State, ss: Stmts)
    requires Good(g)
    ensures (forall k: nat :: k < |g.funs| ==> Follows(g, ss, k)) <==> forall n <- Missed(g) :: NeverExecuted(ss, n)
  {
    hide Reach, Reachable, Mentions, NeverExecuted, Missed, Wf, Dual, Owned;
    if forall n <- Missed(g) :: NeverExecuted(ss, n) {
      forall k: nat, b: nat, n: NodeId | k < |g.funs| && b < |g.blocks| && b in g.funs[k].blocks
          && Mentions(g.blocks[b], n) && !NeverExecuted(ss, n)
        ensures b in Reachable(g, g.funs[k].start)
      {
        MissedMeaning(g, n);
        OwnPaths(g, k, b);
      }
    }
    if forall k: nat :: k < |g.funs| ==> Follows(g, ss, k) {
      forall n | n in Missed(g)
        ensures NeverExecuted(ss, n)
      {
        MissedMeaning(g, n);
        var b: nat :| b < |g.blocks| && b !in Reach(g) && Mentions(g.blocks[b], n);
        OwnerKnown(g, b);
        OwnPaths(g, g.blocks[b].fn, b);
        assert Follows(g, ss, g.blocks[b].fn);
      }
    }
  }

  /** The runs of a program follow the edges of all its functions if and only if, read off
      the syntax, paths get to every recorded node of an executed statement. */
  lemma RunsFollowEdges(id: NodeId, ss: Stmts)
    requires UniqueIdsAll(ss) && WellNestedAll(ss, false) && BuildProgram(id, ss).Ok?
    ensures var g := BuildProgram(id, ss).value;
            FollowedProgram(ss) <==> forall k: nat :: k < |g.funs| ==> Follows(g, ss, k)
  {
    hide BuildProgram, NeverExecuted, Follows, FollowedTop, MissedTop, DoesAll, Missed, Wf, Dual, Owned;
    var g := BuildProgram(id, ss).value;
    BuildProgramKeeps(id, ss);
    FollowsMeaning(g, ss);
    ProgramPaths(id, ss);
    ExpandedFlow(ss, START);
    FollowedExactlyTop(ss, START, true);
    forall n: NodeId
      ensures NeverExecuted(ss, n) <==> n !in DoesAll(ss, true)
    {
      ExecutedExactly(ss, n);
    }
  }

  /** Then the report is right as well: what it says lies off every path. */
  lemma FollowedIsHonest(id: NodeId, ss: Stmts)
    requires UniqueIdsAll(ss) && WellNestedAll(ss, false) && BuildProgram(id, ss).Ok?
    requires FollowedProgram(ss)
    ensures HonestProgram(ss)
  {
    hide BuildProgram, FollowedTop, MissedTop, DoesAll, Missed, Told, ReportedTop, HonestTop, Wf, Dual, Owned;
    var g := BuildProgram(id, ss).value;
    BuildProgramKeeps(id, ss);
    ProgramPaths(id, ss);
    ExpandedFlow(ss, START);
    FollowedExactlyTop(ss, START, true);
    ProgramTold(id, ss);
    ExpandedReports(ss, false);
    HonestExactlyTop(ss, false, true);
    ToldIsMissed(g);
  }

  lemma ToldIsMissed(g: State)
    requires Wf(g)
    ensures Told(g) <= Missed(g)
  {
    hide Wf, HasWayIn, IsStart, Reach;
    forall n | n in Told(g)
      ensures n in Missed(g)
    {
      ToldMeaning(g, n);
      var b: nat :| b < |g.blocks| && !HasWayIn(g, b) && !IsStart(g, b) && ReportNode(g.blocks[b]) == Some(n);
      NoWayNoPath(g, b);
      assert n in Nodes(g.blocks[b]) by { ReportNodeIsNode(g.blocks[b], n); }
    }
  }

  lemma ReportNodeIsNode(b: Vertex, n: NodeId)
    requires ReportNode(b) == Some(n)
    ensures n in Nodes(b)
  {
  }

  lemma NoWayNoPath(g: State, b: nat)
    requires Wf(g) && b < |g.blocks| && !HasWayIn(g, b) && !IsStart(g, b)
    ensures b !in Reach(g)
  {
    var R := Reach(g) - {b};
    ReachIsClosed(g);
    ReachIsLeast(g, R);
  }
}
