/** The builder as the source runs it: mutable blocks that point at each other, a
    cursor and three stacks.  Each method is proved to change the graph exactly as
    the function of the same name in CfgGraph says. */
module CfgBuilder {
  import opened Options
  import opened CfgSyntax
  import G = CfgGraph
  import opened CfgGraph

  class CfgBlock {
    var After: seq<CfgBlock>
    var Before: seq<CfgBlock>
    var Instructions: seq<Instruction>
    var Node: Option<NodeId>
    ghost const index: nat

    constructor (ghost index: nat)
      ensures After == [] && Before == [] && Instructions == [] && Node == None
      ensures this.index == index
    {
      After, Before, Instructions, Node := [], [], [], None;
      this.index := index;
    }
  }

  class FunctionCfg {
    var Start: CfgBlock?
    var End: CfgBlock?
    var blocks: seq<CfgBlock>
    const Node: NodeId
    ghost const index: nat

    constructor (node: NodeId, ghost index: nat)
      ensures Start == null && End == null && blocks == []
      ensures Node == node && this.index == index
    {
      Start, End, blocks, Node := null, null, [], node;
      this.index := index;
    }

    method AddBlock(ghost index: nat) returns (b: CfgBlock)
      modifies this`blocks
      ensures fresh(b) && b.index == index && blocks == old(blocks) + [b]
      ensures b.After == [] && b.Before == [] && b.Instructions == [] && b.Node == None
    {
      b := new CfgBlock(index);
      blocks := blocks + [b];
    }

    /** A function with its first two blocks. */
    static method Create(node: NodeId, ghost index: nat, ghost first: nat)
      returns (f: FunctionCfg, start: CfgBlock, end: CfgBlock)
      ensures fresh(f) && fresh(start) && fresh(end)
      ensures f.Start == start && f.End == end && f.blocks == [start, end] && f.Node == node && f.index == index
      ensures start.index == first && end.index == first + 1
      ensures start.After == [] && start.Before == [] && start.Instructions == [] && start.Node == None
      ensures end.After == [] && end.Before == [] && end.Instructions == [] && end.Node == None
    {
      f := new FunctionCfg(node, index);
      start := f.AddBlock(first);
      end := f.AddBlock(first + 1);
      f.Start := start;
      f.End := end;
    }
  }

  /** `s` lists the blocks numbered `ids`. */
  ghost predicate Lists(nodes: seq<CfgBlock>, s: seq<CfgBlock>, ids: seq<nat>) {
    |s| == |ids| && forall i :: 0 <= i < |s| ==> ids[i] < |nodes| && s[i] == nodes[ids[i]]
  }

  lemma ListsNothing(nodes: seq<CfgBlock>)
    ensures Lists(nodes, [], [])
  {
  }

  lemma ListsMore(nodes: seq<CfgBlock>, more: seq<CfgBlock>, s: seq<CfgBlock>, ids: seq<nat>)
    requires Lists(nodes, s, ids)
    ensures Lists(nodes + more, s, ids)
  {
  }

  lemma ListsOneMore(nodes: seq<CfgBlock>, s: seq<CfgBlock>, ids: seq<nat>, id: nat)
    requires Lists(nodes, s, ids) && id < |nodes|
    ensures Lists(nodes, s + [nodes[id]], ids + [id])
  {
  }

  ghost predicate BlockMatches(nodes: seq<CfgBlock>, b: CfgBlock, m: Vertex)
    reads b
  {
    && Lists(nodes, b.After, m.after) && Lists(nodes, b.Before, m.before)
    && b.Instructions == m.code && b.Node == m.node
  }

  ghost predicate FunMatches(nodes: seq<CfgBlock>, f: FunctionCfg, m: Fun)
    reads f
  {
    && m.start < |nodes| && m.end < |nodes| && f.Start == nodes[m.start] && f.End == nodes[m.end]
    && f.Node == m.node && Lists(nodes, f.blocks, m.blocks)
  }

  ghost predicate BlocksMatch(nodes: seq<CfgBlock>, bs: seq<CfgBlock>, ms: seq<Vertex>)
    reads bs
  {
    |bs| == |ms| && forall i {:trigger ms[i]} :: 0 <= i < |bs| ==> BlockMatches(nodes, bs[i], ms[i])
  }

  ghost predicate FunsMatch(nodes: seq<CfgBlock>, fs: seq<FunctionCfg>, ms: seq<Fun>)
    reads fs
  {
    |fs| == |ms| && forall i {:trigger ms[i]} :: 0 <= i < |fs| ==> FunMatches(nodes, fs[i], ms[i])
  }

  lemma NewFunMatches(nodes: seq<CfgBlock>, f: FunctionCfg, id: nat)
    requires id + 1 < |nodes| && f.Start == nodes[id] && f.End == nodes[id + 1]
             && f.blocks == [nodes[id], nodes[id + 1]]
    ensures FunMatches(nodes, f, Fun(id, id + 1, f.Node, [id, id + 1]))
  {
  }

  lemma NewBlockMatches(nodes: seq<CfgBlock>, b: CfgBlock, fn: nat)
    requires b.After == b.Before == [] && b.Instructions == [] && b.Node == None
    ensures BlockMatches(nodes, b, Vertex([], [], [], None, fn))
  {
  }

  lemma MatchesMore(nodes: seq<CfgBlock>, more: seq<CfgBlock>, bs: seq<CfgBlock>, ms: seq<Vertex>,
      fs: seq<FunctionCfg>, mfs: seq<Fun>)
    requires BlocksMatch(nodes, bs, ms) && FunsMatch(nodes, fs, mfs)
    ensures BlocksMatch(nodes + more, bs, ms) && FunsMatch(nodes + more, fs, mfs)
  {
    hide Lists;
    forall i | 0 <= i < |bs|
      ensures BlockMatches(nodes + more, bs[i], ms[i])
    {
      ListsMore(nodes, more, bs[i].After, ms[i].after);
      ListsMore(nodes, more, bs[i].Before, ms[i].before);
    }
    forall i | 0 <= i < |fs|
      ensures FunMatches(nodes + more, fs[i], mfs[i])
    {
      ListsMore(nodes, more, fs[i].blocks, mfs[i].blocks);
    }
  }

  /** Leave, case by case. */
  lemma LeaveOf(s: Stmt, st: State, s1: State)
    requires Wf(st) && IsNested(s) && G.Enter(s, st).Ok? && Grows(G.Enter(s, st).value, s1)
    ensures s.If? ==> G.Leave(s, st, s1) == G.LeaveIf(s1, |st.blocks|, s.alt)
    ensures s.While? ==> G.Leave(s, st, s1) == G.LeaveLoop(s1, |st.blocks|, |st.blocks| + 2)
    ensures s.ForIn? ==> G.Leave(s, st, s1) == G.LeaveLoop(s1, ForInBase(st) + 1, ForInBase(st) + 3)
    ensures s.Function? ==> G.Leave(s, st, s1) == G.LeaveFunction(s1, G.AddInstruction(st, Assign, s.id).current)
  {
    hide G.LeaveIf, G.LeaveLoop, G.LeaveFunction, G.AddInstruction, G.Enter, ForInBase, Grows;
  }

  class Cfg {
    var allCfg: seq<FunctionCfg>
    var breakStack: seq<CfgBlock>
    var continueStack: seq<CfgBlock>
    var cfgStack: seq<FunctionCfg>
    var current: CfgBlock?

    /** Every block, in the order of creation, and the value the heap stands for. */
    ghost var nodes: seq<CfgBlock>
    ghost var model: State

    ghost predicate Owns(b: CfgBlock)
      reads this`nodes
    {
      b.index < |nodes| && nodes[b.index] == b
    }

    ghost predicate Valid()
      reads this, nodes, allCfg
    {
      && (forall i {:trigger nodes[i].index} :: 0 <= i < |nodes| ==> nodes[i].index == i)
      && (forall i {:trigger allCfg[i].index} :: 0 <= i < |allCfg| ==> allCfg[i].index == i)
      && BlocksMatch(nodes, nodes, model.blocks) && FunsMatch(nodes, allCfg, model.funs)
      && Lists(nodes, breakStack, model.brk) && Lists(nodes, continueStack, model.cont)
      && |cfgStack| == |model.stack|
      && (forall i :: 0 <= i < |cfgStack| ==> model.stack[i] < |allCfg| && cfgStack[i] == allCfg[model.stack[i]])
    }

    /** A function is being built. */
    ghost predicate Building()
      reads this, nodes, allCfg
    {
      && Valid() && Wf(model) && model.stack != [] && current != null
      && |nodes| == |model.blocks| && model.current < |nodes| && current == nodes[model.current]
          && current.index == model.current
    }

    ghost predicate Idle()
      reads this
    {
      allCfg == [] && breakStack == [] && continueStack == [] && cfgStack == [] && nodes == [] && model == EMPTY
    }

    /** Only new objects joined the graph. */
    twostate predicate Grown()
      reads this`nodes, this`allCfg
    {
      && |old(nodes)| <= |nodes| && |old(allCfg)| <= |allCfg|
      && (forall i :: 0 <= i < |old(nodes)| ==> nodes[i] == old(nodes)[i])
      && (forall i :: |old(nodes)| <= i < |nodes| ==> fresh(nodes[i]))
      && (forall i :: 0 <= i < |old(allCfg)| ==> allCfg[i] == old(allCfg)[i])
      && (forall i :: |old(allCfg)| <= i < |allCfg| ==> fresh(allCfg[i]))
    }

    constructor ()
      ensures Idle()
    {
      allCfg, breakStack, continueStack, cfgStack, current := [], [], [], [], null;
      nodes, model := [], EMPTY;
    }

    method AddBlock() returns (b: CfgBlock)
      requires Building()
      modifies this`nodes, this`model, allCfg
      ensures Building() && Grown() && model == G.AddBlock(old(model))
      ensures fresh(b) && b.index == |old(nodes)| && nodes == old(nodes) + [b]
      ensures current == old(current) && allCfg == old(allCfg)
    {
      hide G.Wf, Lists;
      var f := cfgStack[|cfgStack| - 1];
      ghost var k := G.CurrentFun(model);
      b := f.AddBlock(|nodes|);
      ghost var was := nodes;
      nodes := nodes + [b];
      model := G.AddBlock(model);
      ListsNothing(nodes);
      ListsMore(was, [b], breakStack, model.brk);
      ListsMore(was, [b], continueStack, model.cont);
      MatchesMore(was, [b], was, old(model).blocks, [], []);
      forall i | 0 <= i < |allCfg|
        ensures FunMatches(nodes, allCfg[i], model.funs[i])
      {
        ghost var m := old(model).funs[i];
        assert old(FunMatches(nodes, allCfg[i], m));
        ListsMore(was, [b], old(allCfg[i].blocks), m.blocks);
        if i == k {
          ListsOneMore(nodes, old(f.blocks), m.blocks, |was|);
        } else {
          assert allCfg[i].index == i && allCfg[k].index == k;
        }
      }
    }

    method AddThreeBlocks() returns (a: CfgBlock, b: CfgBlock, c: CfgBlock)
      requires Building()
      modifies this`nodes, this`model, allCfg
      ensures Building() && Grown() && model == G.AddBlock(G.AddBlock(G.AddBlock(old(model))))
      ensures nodes == old(nodes) + [a, b, c] && fresh(a) && fresh(b) && fresh(c)
      ensures a.index == |old(nodes)| && b.index == |old(nodes)| + 1 && c.index == |old(nodes)| + 2
      ensures current == old(current) && allCfg == old(allCfg)
    {
      hide Valid, G.Wf, Lists, BlockMatches, FunMatches, BlocksMatch, FunsMatch, G.AddBlock;
      a := AddBlock();
      b := AddBlock();
      c := AddBlock();
    }

    method AddEdge(from: CfgBlock, to: CfgBlock)
      requires Building() && Owns(from) && Owns(to)
      modifies this`model, from, to
      ensures Building() && model == G.AddEdge(old(model), from.index, to.index)
    {
      hide G.Wf, Lists;
      ghost var a, b := model.blocks[from.index], model.blocks[to.index];
      ListsOneMore(nodes, from.After, a.after, to.index);
      ListsOneMore(nodes, to.Before, b.before, from.index);
      from.After := from.After + [to];
      to.Before := to.Before + [from];
      model := G.AddEdge(model, from.index, to.index);
      forall i | 0 <= i < |nodes|
        ensures BlockMatches(nodes, nodes[i], model.blocks[i])
      {
        assert old(BlockMatches(nodes, nodes[i], model.blocks[i]));
      }
      forall i | 0 <= i < |allCfg|
        ensures FunMatches(nodes, allCfg[i], model.funs[i])
      {
        assert old(FunMatches(nodes, allCfg[i], model.funs[i]));
      }
    }

    /** Does the current block have successors already? */
    method CurrentIsClosed() returns (closed: bool)
      requires Building()
      ensures closed == (model.blocks[model.current].after != [])
    {
      assert BlockMatches(nodes, nodes[model.current], model.blocks[model.current]);
      closed := |current.After| != 0;
    }

    method SetCurrent(b: CfgBlock)
      requires Building() && Owns(b)
      modifies this`model, this`current
      ensures Building() && model == G.SetCurrent(old(model), b.index)
    {
      hide G.Wf, Lists, BlockMatches, FunMatches;
      current := b;
      model := G.SetCurrent(model, b.index);
    }

    method SetNode(b: CfgBlock, node: NodeId)
      requires Building() && Owns(b)
      modifies this`model, b`Node
      ensures Building() && model == G.SetNode(old(model), b.index, node)
    {
      hide G.Wf, Lists;
      b.Node := Some(node);
      model := G.SetNode(model, b.index, node);
      forall i | 0 <= i < |nodes|
        ensures BlockMatches(nodes, nodes[i], model.blocks[i])
      {
        assert old(BlockMatches(nodes, nodes[i], model.blocks[i]));
      }
    }

    method AppendInstruction(kind: InstructionKind, node: NodeId)
      requires Building()
      modifies this`model, current`Instructions
      ensures Building() && model == G.AppendCode(old(model), kind, node)
    {
      hide G.Wf, Lists;
      current.Instructions := current.Instructions + [Instruction(kind, node)];
      model := G.AppendCode(model, kind, node);
      forall i | 0 <= i < |nodes|
        ensures BlockMatches(nodes, nodes[i], model.blocks[i])
      {
        assert nodes[i].index == i && current.index == model.current;
        assert old(BlockMatches(nodes, nodes[i], model.blocks[i]));
      }
    }

    method AddInstruction(kind: InstructionKind, node: NodeId)
      requires Building()
      modifies this`nodes, this`model, this`current, allCfg, nodes
      ensures Building() && Grown() && model == G.AddInstruction(old(model), kind, node)
      ensures allCfg == old(allCfg)
    {
      hide G.Wf, Lists, FunMatches, BlockMatches, G.AddBlock, G.AppendCode;
      var closed := CurrentIsClosed();
      if closed {
        var continuation := AddBlock();
        SetCurrent(continuation);
      }
      AppendInstruction(kind, node);
    }

    method PushLoopBlocks(continueBlock: CfgBlock, breakBlock: CfgBlock)
      requires Building() && Owns(continueBlock) && Owns(breakBlock)
      modifies this`model, this`continueStack, this`breakStack
      ensures Building() && model == G.PushLoop(old(model), continueBlock.index, breakBlock.index)
    {
      hide G.Wf, Lists, BlockMatches, FunMatches;
      ListsOneMore(nodes, continueStack, model.cont, continueBlock.index);
      ListsOneMore(nodes, breakStack, model.brk, breakBlock.index);
      continueStack := continueStack + [continueBlock];
      breakStack := breakStack + [breakBlock];
      model := G.PushLoop(model, continueBlock.index, breakBlock.index);
    }

    method PopLoopBlocks()
      requires Building()
      modifies this`model, this`continueStack, this`breakStack
      ensures Building() && model == G.PopLoop(old(model))
    {
      hide G.Wf, BlockMatches, FunMatches;
      if continueStack != [] {
        continueStack := continueStack[..|continueStack| - 1];
      }
      if breakStack != [] {
        breakStack := breakStack[..|breakStack| - 1];
      }
      model := G.PopLoop(model);
    }

    method PeekBreakBlock() returns (b: CfgBlock?)
      requires Building()
      ensures b == null <==> model.brk == []
      ensures b != null ==> Owns(b) && b.index == Last(model.brk)
    {
      hide G.Wf;
      b := if breakStack == [] then null else breakStack[|breakStack| - 1];
    }

    method PeekContinueBlock() returns (b: CfgBlock?)
      requires Building()
      ensures b == null <==> model.cont == []
      ensures b != null ==> Owns(b) && b.index == Last(model.cont)
    {
      hide G.Wf;
      b := if continueStack == [] then null else continueStack[|continueStack| - 1];
    }

    /** `addEdge` from the current block, if it is still open. */
    method JoinTo(b: CfgBlock)
      requires Building() && Owns(b)
      modifies this`model, nodes
      ensures Building() && model == G.JoinTo(old(model), b.index)
    {
      hide G.Wf, Lists, BlockMatches, FunMatches, G.AddEdge;
      var closed := CurrentIsClosed();
      if !closed {
        AddEdge(current, b);
      }
    }

    /** Opens a function: its record, its start and its end block. */
    method BeginFunction(node: NodeId)
      requires Building()
      modifies this
      ensures Building() && Grown() && model == G.BeginFunction(old(model), node)
    {
      hide G.Wf, Lists, BlockMatches, FunMatches;
      var f, start, end := FunctionCfg.Create(node, |allCfg|, |nodes|);
      allCfg := allCfg + [f];
      cfgStack := cfgStack + [f];
      current := start;
      ghost var was, more := nodes, [start, end];
      nodes := was + more;
      model := G.BeginFunction(model, node);
      NewFunMatches(nodes, f, |was|);
      MatchesMore(was, more, was, old(model).blocks, old(allCfg), old(model).funs);
      ListsMore(was, more, breakStack, model.brk);
      ListsMore(was, more, continueStack, model.cont);
      NewBlockMatches(nodes, start, |old(allCfg)|);
      NewBlockMatches(nodes, end, |old(allCfg)|);
      assert BlocksMatch(nodes, nodes, model.blocks);
      assert FunsMatch(nodes, allCfg, model.funs);
    }

    /** The same for the program, on a builder that is still empty. */
    method BeginProgram(node: NodeId)
      requires Idle()
      modifies this
      ensures Building() && Grown() && model == G.BeginFunction(EMPTY, node)
    {
      hide G.Wf, Lists, BlockMatches, FunMatches;
      var f, start, end := FunctionCfg.Create(node, 0, 0);
      allCfg := [f];
      cfgStack := [f];
      current := start;
      nodes := [start, end];
      model := G.BeginFunction(EMPTY, node);
      NewFunMatches(nodes, f, 0);
      ListsNothing(nodes);
      NewBlockMatches(nodes, start, 0);
      NewBlockMatches(nodes, end, 0);
    }

    /** `_buildCfgBlock`, for every kind of statement: no answer when it succeeds,
        the error otherwise. */
    method Build(s: Stmt) returns (err: Option<Error>)
      requires Building()
      modifies this, nodes, allCfg
      ensures err.None? ==> Building() && Grown() && G.Build(s, old(model)) == Ok(model)
      ensures err.Some? ==> G.Build(s, old(model)) == Err(err.value)
      decreases s, 1
    {
      hide Valid, G.Wf, Lists, BlockMatches, FunMatches, BlocksMatch, FunsMatch,
        G.AddBlock, G.AddEdge, G.SetNode, G.SetCurrent, G.AddInstruction, G.OpenBlock, G.PushLoop, G.PopLoop, G.JoinTo;
      match s
      case Plain(_) => err := None;
      case Simple(id, kind) =>
        AddInstruction(kind, id);
        err := None;
      case Block(_, _, children) => err := BuildAll(children);
      case If(_, _, _, _) => err := BuildIf(s);
      case While(_, _, _) => err := BuildWhile(s);
      case ForIn(_, _, _) => err := BuildForIn(s);
      case Break(id) =>
        var afterBlock := PeekBreakBlock();
        if afterBlock == null { return Some(BreakStackEmpty); }
        this.BuildJump(id, afterBlock);
        err := None;
      case Continue(id) =>
        var nextBlock := PeekContinueBlock();
        if nextBlock == null { return Some(ContinueStackEmpty); }
        this.BuildJump(id, nextBlock);
        err := None;
      case Return(id) =>
        this.BuildReturn(id);
        err := None;
      case Function(_, _, _) => err := BuildFunction(s);
    }

    method BuildAll(ss: Stmts) returns (err: Option<Error>)
      requires Building()
      modifies this, nodes, allCfg
      ensures err.None? ==> Building() && Grown() && G.BuildAll(ss, old(model)) == Ok(model)
      ensures err.Some? ==> G.BuildAll(ss, old(model)) == Err(err.value)
      decreases ss
    {
      hide Valid, G.Wf, Lists, BlockMatches, FunMatches, BlocksMatch, FunsMatch,
        G.AddBlock, G.AddEdge, G.SetNode, G.SetCurrent, G.AddInstruction, G.OpenBlock, G.PushLoop, G.PopLoop, G.JoinTo;
      var rest := ss;
      while rest.Cons?
        invariant Building() && Grown()
        invariant G.BuildAll(ss, old(model)) == G.BuildAll(rest, model)
        decreases rest
        invariant rest == ss || rest < ss
      {
        err := Build(rest.head);
        if err.Some? { return; }
        rest := rest.tail;
      }
      err := None;
    }

    /** `visitChildren` with the program's visitor. */
    method VisitChildren(ss: Stmts) returns (err: Option<Error>)
      requires Building()
      modifies this, nodes, allCfg
      ensures err.None? ==> Building() && Grown() && G.BuildAll(Expanded(ss), old(model)) == Ok(model)
      ensures err.Some? ==> G.BuildAll(Expanded(ss), old(model)) == Err(err.value)
    {
      hide Valid, G.Wf, Lists, BlockMatches, FunMatches, BlocksMatch, FunsMatch, G.Build;
      var rest := ss;
      while rest.Cons?
        invariant Building() && Grown()
        invariant G.BuildAll(Expanded(ss), old(model)) == G.BuildAll(Expanded(rest), model)
        decreases rest
        invariant rest == ss || rest < ss
      {
        err := Build(rest.head);
        if err.Some? { return; }
        if Revisited(rest.head) {
          err := Build(rest.head.body);
          if err.Some? { return; }
        }
        rest := rest.tail;
      }
      err := None;
    }

    method BuildJump(id: NodeId, target: CfgBlock)
      requires Building() && Owns(target)
      modifies this, nodes, allCfg
      ensures Building() && Grown() && model == G.BuildJump(old(model), id, target.index)
    {
      hide Valid, G.Wf, Lists, BlockMatches, FunMatches, BlocksMatch, FunsMatch,
        G.AddBlock, G.AddEdge, G.SetNode, G.SetCurrent, G.AddInstruction, G.OpenBlock, G.PushLoop, G.PopLoop, G.JoinTo;
      var prevBlock := current;
      var jumpBlock := AddBlock();
      SetCurrent(jumpBlock);
      AddInstruction(Branch, id);
      AddEdge(prevBlock, jumpBlock);
      AddEdge(jumpBlock, target);
    }

    method BuildReturn(id: NodeId)
      requires Building()
      modifies this, nodes, allCfg
      ensures Building() && Grown() && model == G.BuildReturn(old(model), id)
    {
      hide Valid, G.Wf, Lists, BlockMatches, FunMatches, BlocksMatch, FunsMatch,
        G.AddBlock, G.AddEdge, G.SetNode, G.SetCurrent, G.AddInstruction, G.OpenBlock, G.PushLoop, G.PopLoop, G.JoinTo;
      var prevBlock := current;
      var returnBlock := AddBlock();
      var afterReturnBlock := AddBlock();
      FillReturn(id, prevBlock, returnBlock, afterReturnBlock);
    }

    method FillReturn(id: NodeId, prevBlock: CfgBlock, returnBlock: CfgBlock, afterReturnBlock: CfgBlock)
      requires Building() && Owns(prevBlock) && Owns(returnBlock) && Owns(afterReturnBlock)
      modifies this, nodes, allCfg
      ensures Building() && Grown()
      ensures var s := G.AddEdge(G.AddInstruction(G.SetCurrent(old(model), returnBlock.index), Jump, id),
                prevBlock.index, returnBlock.index);
              model == G.SetCurrent(G.AddEdge(s, returnBlock.index, s.funs[CurrentFun(s)].end), afterReturnBlock.index)
    {
      hide Valid, G.Wf, Lists, BlockMatches, FunMatches, BlocksMatch, FunsMatch,
        G.AddBlock, G.AddEdge, G.SetNode, G.SetCurrent, G.AddInstruction, G.OpenBlock, G.PushLoop, G.PopLoop, G.JoinTo;
      SetCurrent(returnBlock);
      AddInstruction(Jump, id);
      AddEdge(prevBlock, returnBlock);
      var end := CurrentEnd();
      AddEdge(returnBlock, end);
      SetCurrent(afterReturnBlock);
    }

    /** The end block of the function being built. */
    method CurrentEnd() returns (end: CfgBlock)
      requires Building()
      ensures Owns(end) && end.index == model.funs[CurrentFun(model)].end
    {
      hide G.Wf;
      ghost var k := G.CurrentFun(model);
      var f := cfgStack[|cfgStack| - 1];
      assert FunMatches(nodes, allCfg[k], model.funs[k]);
      end := f.End;
    }

    method EnterCondition(id: NodeId, conditionBlock: CfgBlock, condId: NodeId)
      requires Building() && Owns(conditionBlock)
      modifies this, nodes, allCfg
      ensures Building() && Grown() && model == G.EnterCondition(old(model), id, conditionBlock.index, condId)
    {
      hide Valid, G.Wf, Lists, BlockMatches, FunMatches, BlocksMatch, FunsMatch,
        G.AddBlock, G.AddEdge, G.SetNode, G.SetCurrent, G.AddInstruction, G.OpenBlock, G.PushLoop, G.PopLoop, G.JoinTo;
      AddInstruction(Branch, id);
      AddEdge(current, conditionBlock);
      SetNode(conditionBlock, condId);
      SetCurrent(conditionBlock);
      AddInstruction(Branch, id);
    }

    method EdgeUnless(skip: bool, to: CfgBlock)
      requires Building() && Owns(to)
      modifies this`model, nodes
      ensures Building() && model == G.EdgeUnless(old(model), skip, to.index)
    {
      hide Valid, G.Wf, Lists, BlockMatches, FunMatches, BlocksMatch, FunsMatch,
        G.AddBlock, G.AddEdge, G.SetNode, G.SetCurrent, G.AddInstruction, G.OpenBlock, G.PushLoop, G.PopLoop, G.JoinTo;
      if !skip {
        AddEdge(current, to);
      }
    }

    method ElseBranch(alternativeBlock: CfgBlock, afterBlock: CfgBlock, impl: Expr, alt: Else)
      requires Building() && Owns(alternativeBlock) && Owns(afterBlock)
      requires alternativeBlock.index >= 2 && afterBlock.index == alternativeBlock.index + 1
      modifies this, nodes, allCfg
      ensures Building() && Grown() && model == G.ElseBranch(old(model), alternativeBlock.index - 2, impl, alt)
    {
      hide Valid, G.Wf, Lists, BlockMatches, FunMatches, BlocksMatch, FunsMatch,
        G.AddBlock, G.AddEdge, G.SetNode, G.SetCurrent, G.AddInstruction, G.OpenBlock, G.PushLoop, G.PopLoop, G.JoinTo;
      hide G.EdgeUnless;
      if alt.NoElse? {
        AddEdge(current, afterBlock);
      } else {
        EdgeUnless(ConstantTrue(impl), alternativeBlock);
        SetNode(alternativeBlock, alt.id);
      }
    }

    method EnterBranches(conditionBlock: CfgBlock, consequenceBlock: CfgBlock, alternativeBlock: CfgBlock,
                         afterBlock: CfgBlock, impl: Expr, consId: NodeId, alt: Else)
      requires Building()
      requires Owns(conditionBlock) && Owns(consequenceBlock) && Owns(alternativeBlock) && Owns(afterBlock)
      requires consequenceBlock.index == conditionBlock.index + 1
      requires alternativeBlock.index == conditionBlock.index + 2 && afterBlock.index == conditionBlock.index + 3
      modifies this, nodes, allCfg
      ensures Building() && Grown() && model == G.EnterBranches(old(model), conditionBlock.index, impl, consId, alt)
    {
      hide Valid, G.Wf, Lists, BlockMatches, FunMatches, BlocksMatch, FunsMatch,
        G.AddBlock, G.AddEdge, G.SetNode, G.SetCurrent, G.AddInstruction, G.OpenBlock, G.PushLoop, G.PopLoop, G.JoinTo;
      hide G.EdgeUnless, G.ElseBranch;
      EdgeUnless(ConstantFalse(impl), consequenceBlock);
      SetNode(consequenceBlock, consId);
      ElseBranch(alternativeBlock, afterBlock, impl, alt);
      SetCurrent(consequenceBlock);
      AddInstruction(Branch, consId);
    }

    method EnterIf(s: Stmt) returns (err: Option<Error>, alternativeBlock: CfgBlock, afterBlock: CfgBlock)
      requires Building() && s.If?
      modifies this, nodes, allCfg
      ensures err.None? ==> Building() && Grown() && G.Enter(s, old(model)) == Ok(model)
      ensures err.None? ==> Owns(alternativeBlock) && alternativeBlock.index == |old(nodes)| + 2
      ensures err.None? ==> Owns(afterBlock) && afterBlock.index == |old(nodes)| + 3
      ensures err.Some? ==> G.Enter(s, old(model)) == Err(err.value)
    {
      hide Valid, G.Wf, Lists, BlockMatches, FunMatches, BlocksMatch, FunsMatch,
        G.AddBlock, G.AddEdge, G.SetNode, G.SetCurrent, G.AddInstruction, G.OpenBlock, G.PushLoop, G.PopLoop, G.JoinTo;
      hide G.EnterCondition, G.EnterBranches;
      var conditionBlock, consequenceBlock;
      conditionBlock, consequenceBlock, alternativeBlock := AddThreeBlocks();
      afterBlock := AddBlock();
      EnterCondition(s.id, conditionBlock, s.cond.id);
      var impl := ConditionNode(s.cond);
      if impl.None? {
        err := Some(NilDereference);
      } else {
        EnterBranches(conditionBlock, consequenceBlock, alternativeBlock, afterBlock, impl.value, s.cons.id, s.alt);
        err := None;
      }
    }

    method LeaveIf(alternativeBlock: CfgBlock, afterBlock: CfgBlock, alt: Else)
      requires Building() && Owns(alternativeBlock) && Owns(afterBlock) && 2 <= alternativeBlock.index
      requires afterBlock.index == alternativeBlock.index + 1
      modifies this, nodes, allCfg
      ensures Building() && Grown() && model == G.LeaveIf(old(model), alternativeBlock.index - 2, alt)
    {
      hide Valid, G.Wf, Lists, BlockMatches, FunMatches, BlocksMatch, FunsMatch,
        G.AddBlock, G.AddEdge, G.SetNode, G.SetCurrent, G.AddInstruction, G.OpenBlock, G.PushLoop, G.PopLoop, G.JoinTo;
      JoinTo(afterBlock);
      if alt.ElseClause? {
        SetCurrent(alternativeBlock);
        JoinTo(afterBlock);
      }
      SetCurrent(afterBlock);
    }

    method BuildIf(s: Stmt) returns (err: Option<Error>)
      requires Building() && s.If?
      modifies this, nodes, allCfg
      ensures err.None? ==> Building() && Grown() && G.Build(s, old(model)) == Ok(model)
      ensures err.Some? ==> G.Build(s, old(model)) == Err(err.value)
      decreases s, 0
    {
      hide Valid, G.Wf, Lists, BlockMatches, FunMatches, BlocksMatch, FunsMatch,
        G.AddBlock, G.AddEdge, G.SetNode, G.SetCurrent, G.AddInstruction, G.OpenBlock, G.PushLoop, G.PopLoop, G.JoinTo;
      hide G.Enter, G.Leave;
      var alternativeBlock, afterBlock;
      err, alternativeBlock, afterBlock := EnterIf(s);
      if err.Some? { return; }
      err := Build(s.cons);
      if err.Some? { return; }
      ghost var s1 := model;
      LeaveIf(alternativeBlock, afterBlock, s.alt);
      LeaveOf(s, old(model), s1);
    }

    method WhileBranches(condBlock: CfgBlock, bodyBlock: CfgBlock, afterBlock: CfgBlock, impl: Expr, bodyId: NodeId)
      requires Building() && Owns(condBlock) && Owns(bodyBlock) && Owns(afterBlock)
      requires bodyBlock.index == condBlock.index + 1 && afterBlock.index == condBlock.index + 2
      modifies this, nodes, allCfg
      ensures Building() && Grown() && model == G.WhileBranches(old(model), condBlock.index, impl, bodyId)
    {
      hide Valid, G.Wf, Lists, BlockMatches, FunMatches, BlocksMatch, FunsMatch,
        G.AddBlock, G.AddEdge, G.SetNode, G.SetCurrent, G.AddInstruction, G.OpenBlock, G.PushLoop, G.PopLoop, G.JoinTo;
      hide G.EdgeUnless;
      if !ConstantTrue(impl) {
        AddEdge(condBlock, afterBlock);
      }
      EdgeUnless(ConstantFalse(impl), bodyBlock);
      SetNode(bodyBlock, bodyId);
      SetCurrent(bodyBlock);
    }

    method EnterWhile(s: Stmt) returns (err: Option<Error>, condBlock: CfgBlock, afterBlock: CfgBlock)
      requires Building() && s.While?
      modifies this, nodes, allCfg
      ensures err.None? ==> Building() && Grown() && G.Enter(s, old(model)) == Ok(model)
      ensures err.None? ==> Owns(condBlock) && condBlock.index == |old(nodes)|
      ensures err.None? ==> Owns(afterBlock) && afterBlock.index == |old(nodes)| + 2
      ensures err.Some? ==> G.Enter(s, old(model)) == Err(err.value)
    {
      hide Valid, G.Wf, Lists, BlockMatches, FunMatches, BlocksMatch, FunsMatch,
        G.AddBlock, G.AddEdge, G.SetNode, G.SetCurrent, G.AddInstruction, G.OpenBlock, G.PushLoop, G.PopLoop, G.JoinTo;
      hide G.EnterCondition, G.WhileBranches;
      var bodyBlock;
      condBlock, bodyBlock, afterBlock := AddThreeBlocks();
      PushLoopBlocks(condBlock, afterBlock);
      EnterCondition(s.id, condBlock, s.cond.id);
      var impl := ConditionNode(s.cond);
      if impl.None? {
        err := Some(NilDereference);
      } else {
        WhileBranches(condBlock, bodyBlock, afterBlock, impl.value, s.body.id);
        err := None;
      }
    }

    method LeaveLoop(nextBlock: CfgBlock, afterBlock: CfgBlock)
      requires Building() && Owns(nextBlock) && Owns(afterBlock)
      modifies this, nodes, allCfg
      ensures Building() && Grown() && model == G.LeaveLoop(old(model), nextBlock.index, afterBlock.index)
    {
      hide Valid, G.Wf, Lists, BlockMatches, FunMatches, BlocksMatch, FunsMatch,
        G.AddBlock, G.AddEdge, G.SetNode, G.SetCurrent, G.AddInstruction, G.OpenBlock, G.PushLoop, G.PopLoop, G.JoinTo;
      JoinTo(nextBlock);
      SetCurrent(afterBlock);
      PopLoopBlocks();
    }

    method BuildWhile(s: Stmt) returns (err: Option<Error>)
      requires Building() && s.While?
      modifies this, nodes, allCfg
      ensures err.None? ==> Building() && Grown() && G.Build(s, old(model)) == Ok(model)
      ensures err.Some? ==> G.Build(s, old(model)) == Err(err.value)
      decreases s, 0
    {
      hide Valid, G.Wf, Lists, BlockMatches, FunMatches, BlocksMatch, FunsMatch,
        G.AddBlock, G.AddEdge, G.SetNode, G.SetCurrent, G.AddInstruction, G.OpenBlock, G.PushLoop, G.PopLoop, G.JoinTo;
      hide G.Enter, G.Leave;
      var condBlock, afterBlock;
      err, condBlock, afterBlock := EnterWhile(s);
      if err.Some? { return; }
      err := Build(s.body);
      if err.Some? { return; }
      ghost var s1 := model;
      LeaveLoop(condBlock, afterBlock);
      LeaveOf(s, old(model), s1);
    }

    method EnterForIn(s: Stmt) returns (nextBlock: CfgBlock, afterBlock: CfgBlock)
      requires Building() && s.ForIn?
      modifies this, nodes, allCfg
      ensures Building() && Grown() && G.Enter(s, old(model)) == Ok(model)
      ensures Owns(nextBlock) && nextBlock.index == ForInBase(old(model)) + 1
      ensures Owns(afterBlock) && afterBlock.index == ForInBase(old(model)) + 3
    {
      hide Valid, G.Wf, Lists, BlockMatches, FunMatches, BlocksMatch, FunsMatch,
        G.AddBlock, G.AddEdge, G.SetNode, G.SetCurrent, G.AddInstruction, G.OpenBlock, G.PushLoop, G.PopLoop, G.JoinTo;
      hide G.ForInInit, G.ForInIterator, G.ForInNext, ForInBase;
      var initialiseBlock, bodyBlock;
      initialiseBlock, nextBlock, bodyBlock, afterBlock := InitForIn(s.id);
      ForInIterator(initialiseBlock, nextBlock, s.right);
      ForInNext(nextBlock, bodyBlock, afterBlock, s.right, s.body.id);
    }

    method ForInIterator(initialiseBlock: CfgBlock, nextBlock: CfgBlock, right: NodeId)
      requires Building() && Owns(initialiseBlock) && Owns(nextBlock) && nextBlock.index == initialiseBlock.index + 1
      requires initialiseBlock.index + 4 <= |nodes|
      modifies this, nodes, allCfg
      ensures Building() && Grown() && model == G.ForInIterator(old(model), initialiseBlock.index, right)
    {
      hide Valid, G.Wf, Lists, BlockMatches, FunMatches, BlocksMatch, FunsMatch,
        G.AddBlock, G.AddEdge, G.SetNode, G.SetCurrent, G.AddInstruction, G.OpenBlock, G.PushLoop, G.PopLoop, G.JoinTo;
      AddInstruction(Assign, right);
      AddEdge(initialiseBlock, nextBlock);
      SetCurrent(nextBlock);
    }

    method ForInNext(nextBlock: CfgBlock, bodyBlock: CfgBlock, afterBlock: CfgBlock, right: NodeId, bodyId: NodeId)
      requires Building() && Owns(nextBlock) && Owns(bodyBlock) && Owns(afterBlock) && 1 <= nextBlock.index
      requires bodyBlock.index == nextBlock.index + 1 && afterBlock.index == nextBlock.index + 2
      modifies this, nodes, allCfg
      ensures Building() && Grown() && model == G.ForInNext(old(model), nextBlock.index - 1, right, bodyId)
    {
      hide Valid, G.Wf, Lists, BlockMatches, FunMatches, BlocksMatch, FunsMatch,
        G.AddBlock, G.AddEdge, G.SetNode, G.SetCurrent, G.AddInstruction, G.OpenBlock, G.PushLoop, G.PopLoop, G.JoinTo;
      AddInstruction(Assign, right);
      AddInstruction(Branch, right);
      AddEdge(nextBlock, bodyBlock);
      AddEdge(current, afterBlock);
      SetNode(bodyBlock, bodyId);
      SetCurrent(bodyBlock);
    }

    method InitForIn(id: NodeId)
      returns (initialiseBlock: CfgBlock, nextBlock: CfgBlock, bodyBlock: CfgBlock, afterBlock: CfgBlock)
      requires Building()
      modifies this, nodes, allCfg
      ensures Building() && Grown() && model == G.ForInInit(old(model), id)
      ensures Owns(initialiseBlock) && initialiseBlock.index == ForInBase(old(model))
      ensures Owns(nextBlock) && nextBlock.index == ForInBase(old(model)) + 1
      ensures Owns(bodyBlock) && bodyBlock.index == ForInBase(old(model)) + 2
      ensures Owns(afterBlock) && afterBlock.index == ForInBase(old(model)) + 3
    {
      hide Valid, G.Wf, Lists, BlockMatches, FunMatches, BlocksMatch, FunsMatch,
        G.AddBlock, G.AddEdge, G.SetNode, G.SetCurrent, G.AddInstruction, G.OpenBlock, G.PushLoop, G.PopLoop, G.JoinTo;
      AddInstruction(Branch, id);
      initialiseBlock, nextBlock, bodyBlock := AddThreeBlocks();
      afterBlock := AddBlock();
      PushLoopBlocks(nextBlock, afterBlock);
      AddEdge(current, initialiseBlock);
      SetCurrent(initialiseBlock);
    }

    method BuildForIn(s: Stmt) returns (err: Option<Error>)
      requires Building() && s.ForIn?
      modifies this, nodes, allCfg
      ensures err.None? ==> Building() && Grown() && G.Build(s, old(model)) == Ok(model)
      ensures err.Some? ==> G.Build(s, old(model)) == Err(err.value)
      decreases s, 0
    {
      hide Valid, G.Wf, Lists, BlockMatches, FunMatches, BlocksMatch, FunsMatch,
        G.AddBlock, G.AddEdge, G.SetNode, G.SetCurrent, G.AddInstruction, G.OpenBlock, G.PushLoop, G.PopLoop, G.JoinTo;
      hide G.Enter, G.Leave, G.LeaveLoop, ForInBase, G.BuildLeaf;
      var nextBlock, afterBlock := EnterForIn(s);
      err := Build(s.body);
      if err.Some? { return; }
      ghost var s1 := model;
      LeaveLoop(nextBlock, afterBlock);
      LeaveOf(s, old(model), s1);
    }

    method EnterFunction(s: Stmt) returns (prevCurrent: CfgBlock)
      requires Building() && s.Function?
      modifies this, nodes, allCfg
      ensures Building() && Grown() && G.Enter(s, old(model)) == Ok(model)
      ensures |model.stack| >= 2 && Owns(prevCurrent)
              && prevCurrent.index == G.AddInstruction(old(model), Assign, s.id).current
    {
      hide Valid, G.Wf, Lists, BlockMatches, FunMatches, BlocksMatch, FunsMatch,
        G.AddBlock, G.AddEdge, G.SetNode, G.SetCurrent, G.AddInstruction, G.OpenBlock, G.PushLoop, G.PopLoop, G.JoinTo;
      hide G.BeginFunction;
      AddInstruction(Assign, s.id);
      prevCurrent := current;
      BeginFunction(s.id);
    }

    method LeaveFunction(prevCurrent: CfgBlock)
      requires Building() && |model.stack| >= 2 && Owns(prevCurrent)
      modifies this, nodes, allCfg
      ensures Building() && Grown() && model == G.LeaveFunction(old(model), prevCurrent.index)
    {
      hide Valid, G.Wf, Lists, BlockMatches, FunMatches, BlocksMatch, FunsMatch,
        G.AddBlock, G.AddEdge, G.SetNode, G.SetCurrent, G.AddInstruction, G.OpenBlock, G.PushLoop, G.PopLoop, G.JoinTo;
      var end := CurrentEnd();
      AddEdge(current, end);
      PopFunction(prevCurrent);
    }

    /** `buildFunctionCfg`. */
    method BuildFunction(s: Stmt) returns (err: Option<Error>)
      requires Building() && s.Function?
      modifies this, nodes, allCfg
      ensures err.None? ==> Building() && Grown() && G.Build(s, old(model)) == Ok(model)
      ensures err.Some? ==> G.Build(s, old(model)) == Err(err.value)
      decreases s, 0
    {
      hide Valid, G.Wf, Lists, BlockMatches, FunMatches, BlocksMatch, FunsMatch,
        G.AddBlock, G.AddEdge, G.SetNode, G.SetCurrent, G.AddInstruction, G.OpenBlock, G.PushLoop, G.PopLoop, G.JoinTo;
      hide G.Enter, G.Leave;
      var prevCurrent := EnterFunction(s);
      err := Build(s.body);
      if err.Some? { return; }
      ghost var s1 := model;
      LeaveFunction(prevCurrent);
      LeaveOf(s, old(model), s1);
    }

    method PopFunction(back: CfgBlock)
      requires Building() && |model.stack| >= 2 && Owns(back)
      modifies this`model, this`cfgStack, this`current
      ensures Building() && model == old(model).(stack := Popped(old(model).stack), current := back.index)
    {
      hide Lists, BlockMatches, FunMatches;
      cfgStack := cfgStack[..|cfgStack| - 1];
      current := back;
      model := model.(stack := Popped(model.stack), current := back.index);
    }

    /** `program._buildCfgBlock` on a new builder. */
    method BuildProgram(id: NodeId, ss: Stmts) returns (err: Option<Error>)
      requires Idle()
      modifies this
      ensures err.None? ==> Building() && G.BuildProgram(id, ss) == Ok(model)
      ensures err.Some? ==> G.BuildProgram(id, ss) == Err(err.value)
    {
      hide Valid, G.Wf, Lists, BlockMatches, FunMatches, BlocksMatch, FunsMatch,
        G.AddBlock, G.AddEdge, G.SetNode, G.SetCurrent, G.AddInstruction, G.OpenBlock, G.PushLoop, G.PopLoop, G.JoinTo;
      hide G.BeginFunction;
      BeginProgram(id);
      err := VisitChildren(ss);
      if err.Some? { return; }
      var end := CurrentEnd();
      AddEdge(current, end);
    }
  }
}
