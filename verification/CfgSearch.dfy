/** The depth-first searches behind the cyclomatic complexity, and the report, as
    the source runs them on the linked blocks. */
module CfgSearch {
  import opened Options
  import opened CfgSyntax
  import opened CfgGraph
  import opened CfgReport
  import opened CfgRuns
  import opened CfgHonest
  import opened CfgReach
  import opened CfgFlow
  import opened CfgRecords
  import opened CfgBuilder

  // ----- sets of blocks and their numbers -----

  ghost function Numbers(s: set<CfgBlock>): set<nat> {
    set b <- s :: b.index
  }

  /** `nodes` are the linked form of the blocks of `g`. */
  ghost predicate Linked(nodes: seq<CfgBlock>, g: State)
    reads nodes
  {
    Wf(g) && BlocksMatch(nodes, nodes, g.blocks) && forall i {:trigger nodes[i].index} :: 0 <= i < |nodes| ==>
        nodes[i].index == i
  }

  ghost predicate Among(nodes: seq<CfgBlock>, s: set<CfgBlock>) {
    forall b <- s :: b.index < |nodes| && nodes[b.index] == b
  }

  /** Edges out of a set of blocks. */
  function EdgeSum(bs: seq<Vertex>, L: set<nat>, n: nat): nat
    requires n <= |bs|
  {
    if n == 0 then 0 else EdgeSum(bs, L, n - 1) + if n - 1 in L then |bs[n - 1].after| else 0
  }

  lemma {:induction false} EdgeSumUnion(bs: seq<Vertex>, L: set<nat>, M: set<nat>, n: nat)
    requires n <= |bs| && L !! M
    ensures EdgeSum(bs, L + M, n) == EdgeSum(bs, L, n) + EdgeSum(bs, M, n)
  {
    if n != 0 {
      EdgeSumUnion(bs, L, M, n - 1);
    }
  }

  lemma {:induction false} EdgeSumOne(bs: seq<Vertex>, b: nat, n: nat)
    requires n <= |bs|
    ensures EdgeSum(bs, {b}, n) == if b < n then |bs[b].after| else 0
  {
    if n != 0 {
      EdgeSumOne(bs, b, n - 1);
    }
  }

  /** Edges minus blocks is what the complexity counts. */
  lemma {:induction false} ExcessIsEdgesMinusBlocks(bs: seq<Vertex>, L: set<nat>, n: nat)
    requires n <= |bs| && Below(L, n)
    ensures Excess(bs, L, n) == EdgeSum(bs, L, n) - |L|
  {
    if n != 0 {
      var M := L - {n - 1};
      ExcessIsEdgesMinusBlocks(bs, M, n - 1);
      ExcessAgrees(bs, L, M, n - 1);
      assert n - 1 in L ==> L == M + {n - 1};
      assert n - 1 !in L ==> L == M;
    } else {
      assert L == {};
    }
  }

  lemma {:induction false} ExcessAgrees(bs: seq<Vertex>, L: set<nat>, M: set<nat>, n: nat)
    requires n <= |bs| && forall b :: 0 <= b < n ==> (b in L <==> b in M)
    ensures Excess(bs, L, n) == Excess(bs, M, n) && EdgeSum(bs, L, n) == EdgeSum(bs, M, n)
  {
    if n != 0 {
      ExcessAgrees(bs, L, M, n - 1);
    }
  }

  lemma {:induction false} NumbersCount(nodes: seq<CfgBlock>, s: set<CfgBlock>)
    requires Among(nodes, s)
    ensures |Numbers(s)| == |s|
    decreases |s|
  {
    if s != {} {
      var b :| b in s;
      NumbersCount(nodes, s - {b});
      assert Numbers(s) == Numbers(s - {b}) + {b.index};
      assert b.index !in Numbers(s - {b});
    }
  }

  // ----- depth-first search -----

  ghost predicate Successors(g: State, b: nat, seen: set<nat>) {
    b < |g.blocks| && forall x <- g.blocks[b].after :: x in seen
  }

  /** What a search from block `c` adds to the blocks seen before: blocks reachable
      from `c`, with all their successors. */
  ghost predicate Searched(g: State, c: nat, seen: set<nat>, now: set<nat>) {
    && seen <= now && c in now
    && forall b <- now :: b !in seen ==> Reaches(g, c, b) && Successors(g, b, now)
  }

  /** The same, while only the first `i` successors of `c` have been searched. */
  ghost predicate Searching(g: State, c: nat, seen: set<nat>, now: set<nat>, i: nat)
    requires c < |g.blocks| && i <= |g.blocks[c].after|
  {
    && seen + {c} <= now && c !in seen
    && (forall b <- now :: b !in seen && b != c ==> Reaches(g, c, b) && Successors(g, b, now))
    && forall x <- g.blocks[c].after[..i] :: x in now
  }

  lemma ReachesFurther(g: State, c: nat, a: nat, b: nat)
    requires c < |g.blocks| && a in g.blocks[c].after && Reaches(g, a, b)
    ensures Reaches(g, c, b)
  {
    var p: seq<nat> :| IsPath(g, p) && p[0] == a && Last(p) == b;
    var q := [c] + p;
    assert IsPath(g, q) && q[0] == c && Last(q) == b;
  }

  /** One more successor, searched now or seen before. */
  lemma SearchStep(g: State, c: nat, seen: set<nat>, was: set<nat>, now: set<nat>, i: nat)
    requires c < |g.blocks| && i < |g.blocks[c].after| && Searching(g, c, seen, was, i)
    requires var a := g.blocks[c].after[i]; (a in was && now == was) || (a !in was && Searched(g, a, was, now))
    ensures Searching(g, c, seen, now, i + 1)
  {
    hide Reaches;
    var after := g.blocks[c].after;
    assert after[..i + 1] == after[..i] + [after[i]];
    forall b | b in now && b !in was
      ensures Reaches(g, c, b)
    {
      ReachesFurther(g, c, after[i], b);
    }
  }

  lemma SearchDone(g: State, c: nat, seen: set<nat>, now: set<nat>)
    requires c < |g.blocks| && Searching(g, c, seen, now, |g.blocks[c].after|)
    ensures Searched(g, c, seen, now)
  {
    assert g.blocks[c].after[..|g.blocks[c].after|] == g.blocks[c].after;
    assert Reaches(g, c, c) by {
      assert IsPath(g, [c]) && [c][0] == c && Last([c]) == c;
    }
  }

  /** A search that starts with nothing seen finds exactly the reachable blocks. */
  lemma SearchedIsReachable(g: State, c: nat, seen: set<nat>)
    requires Wf(g) && c < |g.blocks| && Searched(g, c, {}, seen)
    ensures seen == Reachable(g, c)
  {
    forall b | b in Reachable(g, c)
      ensures b in seen
    {
      var p: seq<nat> :| IsPath(g, p) && p[0] == c && Last(p) == b;
      ReachableIsLeast(g, c, b, seen, p);
    }
  }

  lemma NumberedIn(nodes: seq<CfgBlock>, s: set<CfgBlock>, b: CfgBlock)
    requires Among(nodes, s + {b})
    ensures b.index in Numbers(s) <==> b in s
    ensures Numbers(s + {b}) == Numbers(s) + {b.index}
  {
  }

  /** The successors of a linked block. */
  lemma AfterLinked(nodes: seq<CfgBlock>, g: State, c: CfgBlock)
    requires Linked(nodes, g) && Among(nodes, {c})
    ensures c.index < |g.blocks| && Lists(nodes, c.After, g.blocks[c.index].after)
    ensures forall i :: 0 <= i < |c.After| ==>
              Among(nodes, {c.After[i]}) && c.After[i].index == g.blocks[c.index].after[i]
  {
    assert BlockMatches(nodes, nodes[c.index], g.blocks[c.index]);
    forall i | 0 <= i < |c.After|
      ensures Among(nodes, {c.After[i]}) && c.After[i].index == g.blocks[c.index].after[i]
    {
      var k := g.blocks[c.index].after[i];
      assert nodes[k].index == k;
    }
  }

  /** The `seen` map of a search. */
  class BlockMap {
    var marked: set<CfgBlock>

    constructor ()
      ensures marked == {}
    {
      marked := {};
    }
  }

  ghost function Unseen(nodes: seq<CfgBlock>, seen: set<CfgBlock>): set<CfgBlock> {
    (set b <- nodes) - seen
  }

  /** `getDownwardNodes`. */
  method GetDownwardNodes(c: CfgBlock, blocks: BlockMap, ghost nodes: seq<CfgBlock>, ghost g: State)
    requires Linked(nodes, g) && Among(nodes, blocks.marked) && Among(nodes, {c}) && c !in blocks.marked
    modifies blocks
    ensures Among(nodes, blocks.marked) && old(blocks.marked) + {c} <= blocks.marked
    ensures Searched(g, c.index, Numbers(old(blocks.marked)), Numbers(blocks.marked))
    decreases Unseen(nodes, blocks.marked)
  {
    hide Wf, BlocksMatch, Lists, Reaches, Searched, Searching, Successors;
    ghost var seen := Numbers(blocks.marked);
    AfterLinked(nodes, g, c);
    NumberedIn(nodes, blocks.marked, c);
    blocks.marked := blocks.marked + {c};
    SearchStart(g, c.index, seen);
    for i := 0 to |c.After|
      invariant Among(nodes, blocks.marked) && old(blocks.marked) + {c} <= blocks.marked
      invariant |c.After| == |g.blocks[c.index].after| && Searching(g, c.index, seen, Numbers(blocks.marked), i)
    {
      var a := c.After[i];
      ghost var was := blocks.marked;
      assert Among(nodes, {a});
      NumberedIn(nodes, was, a);
      if a !in blocks.marked {
        GetDownwardNodes(a, blocks, nodes, g);
      }
      SearchStep(g, c.index, seen, Numbers(was), Numbers(blocks.marked), i);
    }
    SearchDone(g, c.index, seen, Numbers(blocks.marked));
  }

  lemma SearchStart(g: State, c: nat, seen: set<nat>)
    requires c < |g.blocks| && c !in seen
    ensures Searching(g, c, seen, seen + {c}, 0)
  {
  }

  /** `countDownwardEdges`: the out-degrees of exactly the blocks it marks. */
  method SumDownwardEdges(c: CfgBlock, seen: BlockMap, ghost nodes: seq<CfgBlock>, ghost g: State) returns (count: nat)
    requires Linked(nodes, g) && Among(nodes, seen.marked) && Among(nodes, {c}) && c !in seen.marked
    modifies seen
    ensures Among(nodes, seen.marked) && old(seen.marked) + {c} <= seen.marked
    ensures Searched(g, c.index, Numbers(old(seen.marked)), Numbers(seen.marked))
    ensures count == EdgeSum(g.blocks, Numbers(seen.marked) - Numbers(old(seen.marked)), |g.blocks|)
    decreases Unseen(nodes, seen.marked)
  {
    hide Wf, BlocksMatch, Lists, Reaches, Searched, Searching, Successors, EdgeSum;
    ghost var before := Numbers(seen.marked);
    AfterLinked(nodes, g, c);
    NumberedIn(nodes, seen.marked, c);
    seen.marked := seen.marked + {c};
    count := |c.After|;
    SearchStart(g, c.index, before);
    EdgeSumOne(g.blocks, c.index, |g.blocks|);
    assert Numbers(seen.marked) - before == {c.index};
    for i := 0 to |c.After|
      invariant Among(nodes, seen.marked) && old(seen.marked) + {c} <= seen.marked && before <= Numbers(seen.marked)
      invariant |c.After| == |g.blocks[c.index].after| && Searching(g, c.index, before, Numbers(seen.marked), i)
      invariant count == EdgeSum(g.blocks, Numbers(seen.marked) - before, |g.blocks|)
    {
      var a := c.After[i];
      ghost var was := seen.marked;
      assert Among(nodes, {a});
      NumberedIn(nodes, was, a);
      if a !in seen.marked {
        var more := SumDownwardEdges(a, seen, nodes, g);
        count := count + more;
        EdgeSumUnion(g.blocks, Numbers(was) - before, Numbers(seen.marked) - Numbers(was), |g.blocks|);
        NumbersKept(was, seen.marked);
        assert Numbers(seen.marked) - before == (Numbers(was) - before) + (Numbers(seen.marked) - Numbers(was));
      }
      SearchStep(g, c.index, before, Numbers(was), Numbers(seen.marked), i);
    }
    SearchDone(g, c.index, before, Numbers(seen.marked));
  }

  lemma NumbersKept(was: set<CfgBlock>, now: set<CfgBlock>)
    requires was <= now
    ensures Numbers(was) <= Numbers(now)
  {
  }

  method CountDownwardEdges(c: CfgBlock, ghost nodes: seq<CfgBlock>, ghost g: State) returns (count: nat)
    requires Linked(nodes, g) && Among(nodes, {c})
    ensures c.index < |g.blocks| && count == EdgeSum(g.blocks, Reachable(g, c.index), |g.blocks|)
  {
    hide Reachable, EdgeSum, Reaches, Wf;
    var seen := new BlockMap();
    count := SumDownwardEdges(c, seen, nodes, g);
    assert Numbers(seen.marked) - Numbers({}) == Numbers(seen.marked);
    SearchedIsReachable(g, c.index, Numbers(seen.marked));
  }

  method CountDownwardNodes(c: CfgBlock, ghost nodes: seq<CfgBlock>, ghost g: State) returns (count: nat)
    requires Linked(nodes, g) && Among(nodes, {c})
    ensures c.index < |g.blocks| && count == |Reachable(g, c.index)|
  {
    hide Reachable, Reaches, Wf;
    var blocks := new BlockMap();
    GetDownwardNodes(c, blocks, nodes, g);
    SearchedIsReachable(g, c.index, Numbers(blocks.marked));
    NumbersCount(nodes, blocks.marked);
    count := |blocks.marked|;
  }

  /** Two searches through a graph that may have cycles give edges minus nodes plus
      two over exactly the blocks reachable from `c`. */
  method CalculateCyclomaticComplexity(c: CfgBlock, ghost nodes: seq<CfgBlock>, ghost g: State)
      returns (complexity: int)
    requires Linked(nodes, g) && Among(nodes, {c})
    ensures c.index < |g.blocks| && complexity == Complexity(g, Reachable(g, c.index))
  {
    var edges: int := CountDownwardEdges(c, nodes, g);
    var blocks: int := CountDownwardNodes(c, nodes, g);
    complexity := edges - blocks + 2;
    ExcessIsEdgesMinusBlocks(g.blocks, Reachable(g, c.index), |g.blocks|);
  }

  // ----- the analyses of a file -----

  datatype Level = Moderate | High | VeryHigh

  datatype Analysis =
    | Unreachable(node: NodeId)
    | TooComplex(node: NodeId, complexity: int, level: Level)

  /** The note for a function of this complexity. */
  function ComplexityNote(node: NodeId, complexity: int): seq<Analysis> {
    if complexity <= 10 then []
    else
      var level := if complexity <= 20 then Moderate else if complexity <= 50 then High else VeryHigh;
      [TooComplex(node, complexity, level)]
  }

  function Unreachables(nodes: seq<NodeId>): (r: seq<Analysis>)
    ensures |r| == |nodes| && forall i :: 0 <= i < |nodes| ==> r[i] == Unreachable(nodes[i])
  {
    seq(|nodes|, i requires 0 <= i < |nodes| => Unreachable(nodes[i]))
  }

  /** What the first `n` functions of a graph are noted for. */
  ghost function Analyses(g: State, n: nat, skipComplexity: bool): seq<Analysis>
    requires Wf(g) && n <= |g.funs|
  {
    if n == 0 then [] else
      var f := g.funs[n - 1];
      assert FunInRange(f, |g.blocks|);
      Analyses(g, n - 1, skipComplexity)
      + (if skipComplexity then [] else ComplexityNote(f.node, Complexity(g, Reachable(g, f.start))))
      + Unreachables(ReportBlocks(g, f, f.blocks))
  }

  /** Eleven to twenty is moderate, up to fifty is high. */
  predicate Rated(complexity: int, level: Level) {
    match level
    case Moderate => 10 < complexity <= 20
    case High => 20 < complexity <= 50
    case VeryHigh => 50 < complexity
  }

  lemma InThree<T>(a: seq<T>, b: seq<T>, c: seq<T>, x: T)
    ensures x in a + b + c <==> x in a || x in b || x in c
  {
  }

  lemma UnreachablesMeaning(nodes: seq<NodeId>, node: NodeId, complexity: int, level: Level)
    ensures Unreachable(node) in Unreachables(nodes) <==> node in nodes
    ensures TooComplex(node, complexity, level) !in Unreachables(nodes)
  {
    if i :| 0 <= i < |nodes| && nodes[i] == node {
      assert Unreachables(nodes)[i] == Unreachable(node);
    }
  }

  lemma RatedNote(owner: NodeId, count: int, node: NodeId, complexity: int, level: Level)
    ensures TooComplex(node, complexity, level) in ComplexityNote(owner, count) <==>
            Rated(complexity, level) && node == owner && complexity == count
    ensures Unreachable(node) !in ComplexityNote(owner, count)
  {
    var note := ComplexityNote(owner, count);
    if Rated(complexity, level) && node == owner && complexity == count {
      assert note[0] == TooComplex(node, complexity, level);
    }
  }

  /** The analyses call exactly the reported nodes unreachable, and exactly the
      functions above ten too complex, with their level. */
  lemma {:induction false} AnalysesMeaning(g: State, n: nat, skipComplexity: bool, node: NodeId, complexity: int,
      level: Level)
    requires Wf(g) && n <= |g.funs|
    ensures Unreachable(node) in Analyses(g, n, skipComplexity) <==> node in Report(g, n)
    ensures TooComplex(node, complexity, level) in Analyses(g, n, skipComplexity) <==>
            !skipComplexity && Rated(complexity, level) &&
            exists k :: 0 <= k < n && g.funs[k].node == node &&
              complexity == Complexity(g, Reachable(g, g.funs[k].start))
  {
    hide Wf, Complexity, Reachable, ReportBlocks, ComplexityNote, Rated, Unreachables;
    if n > 0 {
      AnalysesMeaning(g, n - 1, skipComplexity, node, complexity, level);
      var f := g.funs[n - 1];
      assert FunInRange(f, |g.blocks|) by { FunFits(g, n - 1); }
      var note := if skipComplexity then [] else ComplexityNote(f.node, Complexity(g, Reachable(g, f.start)));
      var front, back := Analyses(g, n - 1, skipComplexity), Unreachables(ReportBlocks(g, f, f.blocks));
      InThree(front, note, back, Unreachable(node));
      InThree(front, note, back, TooComplex(node, complexity, level));
      UnreachablesMeaning(ReportBlocks(g, f, f.blocks), node, complexity, level);
      RatedNote(f.node, Complexity(g, Reachable(g, f.start)), node, complexity, level);
    }
  }

  lemma FunFits(g: State, k: nat)
    requires Wf(g) && k < |g.funs|
    ensures FunInRange(g.funs[k], |g.blocks|)
  {
  }

  /** `analyseCfg` on one function: its blocks nobody leads to. */
  method AnalyseBlocks(f: FunctionCfg, ghost k: nat, ghost nodes: seq<CfgBlock>, ghost g: State)
      returns (analyses: seq<Analysis>)
    requires Linked(nodes, g) && k < |g.funs| && FunMatches(nodes, f, g.funs[k]) && FunInRange(g.funs[k], |g.blocks|)
    ensures analyses == Unreachables(ReportBlocks(g, g.funs[k], g.funs[k].blocks))
  {
    hide Wf;
    ghost var fun := g.funs[k];
    analyses := [];
    for i := 0 to |f.blocks|
      invariant |f.blocks| == |fun.blocks| && analyses == Unreachables(ReportBlocks(g, fun, fun.blocks[..i]))
    {
      var block := f.blocks[i];
      ghost var b := fun.blocks[i];
      assert block == nodes[b] && BlockMatches(nodes, nodes[b], g.blocks[b]);
      assert fun.blocks[..i + 1] == fun.blocks[..i] + [b] && fun.blocks[..i + 1][..i] == fun.blocks[..i];
      assert f.Start.index == fun.start && block.index == b;
      if |block.Before| == 0 && f.Start != block {
        if block.Node.Some? {
          analyses := analyses + [Unreachable(block.Node.value)];
        } else if |block.Instructions| != 0 {
          analyses := analyses + [Unreachable(block.Instructions[0].node)];
        }
      }
    }
    assert fun.blocks[..|f.blocks|] == fun.blocks;
  }

  lemma FunctionAt(cfg: Cfg, i: nat)
    requires cfg.Building() && i < |cfg.allCfg|
    ensures var g := cfg.model;
      && Linked(cfg.nodes, g) && i < |g.funs| && FunMatches(cfg.nodes, cfg.allCfg[i], g.funs[i])
      && FunInRange(g.funs[i], |g.blocks|) && cfg.allCfg[i].Start.index == g.funs[i].start
      && g.funs[i].start < |cfg.nodes| && cfg.allCfg[i].Start == cfg.nodes[g.funs[i].start]
  {
    FunFits(cfg.model, i);
  }

  /** `analyseCfg`. */
  method AnalyseCfg(cfg: Cfg, skipComplexity: bool) returns (analyses: seq<Analysis>)
    requires cfg.Building()
    ensures analyses == Analyses(cfg.model, |cfg.model.funs|, skipComplexity)
  {
    hide Wf, Complexity, Reachable, ReportBlocks, Linked, FunMatches, FunInRange;
    analyses := [];
    ghost var g := cfg.model;
    assert |cfg.allCfg| == |g.funs|;
    for i := 0 to |cfg.allCfg|
      invariant analyses == Analyses(g, i, skipComplexity)
    {
      var f := cfg.allCfg[i];
      FunctionAt(cfg, i);
      if !skipComplexity {
        assert Among(cfg.nodes, {cfg.nodes[g.funs[i].start]});
        var complexity := CalculateCyclomaticComplexity(f.Start, cfg.nodes, g);
        analyses := analyses + ComplexityNote(f.Node, complexity);
      }
      var more := AnalyseBlocks(f, i, cfg.nodes, g);
      analyses := analyses + more;
    }
  }

  /** From the source text's tree to the report.  The nodes the analysis calls unreachable
      are never executed, by the program or by a function it sets up, if and only if the
      program is honest.  The functions it calls too complex are those whose complexity,
      read off the syntax, exceeds ten. */
  method AnalyseProgram(id: NodeId, ss: Stmts, skipComplexity: bool)
      returns (err: Option<Error>, analyses: seq<Analysis>)
    ensures err == match BuildProgram(id, ss) { case Ok(_) => None case Err(e) => Some(e) }
    ensures err.None? ==>
              var g := BuildProgram(id, ss).value; analyses == Analyses(g, |g.funs|, skipComplexity)
    ensures err.None? && UniqueIdsAll(ss) && WellNestedAll(ss, false) ==>
              (HonestProgram(ss) <==> forall n: NodeId :: Unreachable(n) in analyses ==> NeverExecuted(ss, n))
    ensures err.None? && !skipComplexity && WellNestedAll(ss, false) ==>
              forall n: NodeId, c: int, l: Level ::
                TooComplex(n, c, l) in analyses <==> Rated(c, l) && Record(n, c) in ProgramRecords(id, ss)
  {
    hide WellNestedAll, BuildProgram, Analyses, NeverExecuted, HonestProgram, UniqueIdsAll, Rated, ProgramRecords;
    analyses := [];
    var cfg := new Cfg();
    err := cfg.BuildProgram(id, ss);
    if err.Some? { return; }
    analyses := AnalyseCfg(cfg, skipComplexity);
    if UniqueIdsAll(ss) && WellNestedAll(ss, false) {
      UnreachableNoteIsSound(id, ss, skipComplexity);
    }
    if !skipComplexity && WellNestedAll(ss, false) {
      ComplexityNotes(id, ss);
    }
  }

  lemma ComplexityNotes(id: NodeId, ss: Stmts)
    requires WellNestedAll(ss, false) && BuildProgram(id, ss).Ok?
    ensures var g := BuildProgram(id, ss).value;
            forall n: NodeId, c: int, l: Level ::
              TooComplex(n, c, l) in Analyses(g, |g.funs|, false) <==>
              Rated(c, l) && Record(n, c) in ProgramRecords(id, ss)
  {
    hide WellNestedAll, BuildProgram, Analyses, ProgramRecords, Complexity, Reachable, Rated;
    var g, records := BuildProgram(id, ss).value, ProgramRecords(id, ss);
    ProgramPaths(id, ss);
    forall n: NodeId, c: int, l: Level
      ensures TooComplex(n, c, l) in Analyses(g, |g.funs|, false) <==> Rated(c, l) && Record(n, c) in records
    {
      AnalysesMeaning(g, |g.funs|, false, n, c, l);
      RecordsMeaning(g, records, n, c);
    }
  }

  lemma RecordsMeaning(g: State, records: seq<Record>, n: NodeId, c: int)
    requires Wf(g) && |g.funs| == |records| && forall k: nat :: k < |records| ==> HasRecord(g, k, records[k])
    ensures Record(n, c) in records <==>
            exists k :: 0 <= k < |g.funs| && g.funs[k].node == n && c == Complexity(g, Reachable(g, g.funs[k].start))
  {
    hide Complexity, Reachable, Wf;
    forall k: nat | k < |records|
      ensures records[k].node == g.funs[k].node
      ensures records[k].complexity == Complexity(g, Reachable(g, g.funs[k].start))
    {
      assert HasRecord(g, k, records[k]);
    }
  }

  lemma UnreachableNoteIsSound(id: NodeId, ss: Stmts, skipComplexity: bool)
    requires UniqueIdsAll(ss) && WellNestedAll(ss, false) && BuildProgram(id, ss).Ok?
    ensures var g := BuildProgram(id, ss).value;
            HonestProgram(ss) <==>
            forall n: NodeId :: Unreachable(n) in Analyses(g, |g.funs|, skipComplexity) ==> NeverExecuted(ss, n)
  {
    hide WellNestedAll, BuildProgram, UniqueIdsAll, Analyses, Report, NeverExecuted, HonestProgram;
    var g := BuildProgram(id, ss).value;
    UnreachableIsNeverExecuted(id, ss);
    forall n: NodeId
      ensures Unreachable(n) in Analyses(g, |g.funs|, skipComplexity) <==> n in Report(g, |g.funs|)
    {
      AnalysesMeaning(g, |g.funs|, skipComplexity, n, 0, High);
    }
  }
}
