/** Where the paths of the finished graph lead, read off the syntax: which statements a
    path gets to, which nodes are recorded only off every path, and how many edges the
    paths use. */
module CfgFlow {
  import opened CfgSyntax
  import opened CfgTold

  /** The block that is current: does a path lead there, and does it have no successor? */
  datatype Cursor = Cursor(reached: bool, open: bool)

  /** The cursor that takes the next instruction. */
  function Opened(c: Cursor): Cursor {
    if c.open then c else Cursor(false, true)
  }

  /** What building a statement does: where it ends, whether a path leads to its `break`
      or its `return`, the nodes that paths miss, and the edges it adds to the paths,
      less the blocks they newly get to. */
  datatype Flow = Flow(end: Cursor, breaks: bool, leaves: bool, missed: set<NodeId>, edges: int)

  function Count(b: bool): nat {
    if b then 1 else 0
  }

  function FlowOf(s: Stmt, c: Cursor): Flow {
    var o := Opened(c);
    match s
    case Plain(_) => Flow(c, false, false, {}, 0)
    case Simple(id, _) => Flow(o, false, false, Only(!o.reached, id), 0)
    case Break(id) => Flow(Cursor(c.reached, false), c.reached, false, Only(!c.reached, id), Count(c.reached))
    case Continue(id) => Flow(Cursor(c.reached, false), false, false, Only(!c.reached, id), Count(c.reached))
    case Return(id) => Flow(Cursor(false, true), false, c.reached, Only(!c.reached, id), Count(c.reached))
    case Block(_, _, children) => FlowAll(children, c)
    case If(id, cond, cons, alt) => IfFlow(s, o, FlowOf(cons, Cursor(o.reached && !Pruned(cond, false), true)))
    case While(id, cond, body) => WhileFlow(s, o, FlowOf(body, Cursor(o.reached && !Pruned(cond, false), true)))
    case ForIn(id, right, body) => ForInFlow(s, o, FlowOf(body, Cursor(o.reached, true)))
    case Function(id, _, body) =>
      Flow(o, false, false, Only(!o.reached, id) + FlowOf(body, Cursor(true, true)).missed, 0)
  }

  function FlowAll(ss: Stmts, c: Cursor): Flow {
    match ss
    case Nil => Flow(c, false, false, {}, 0)
    case Cons(s, rest) =>
      var first := FlowOf(s, c);
      Both(first, FlowAll(rest, first.end))
  }

  /** One after the other. */
  function Both(a: Flow, b: Flow): Flow {
    Flow(b.end, a.breaks || b.breaks, a.leaves || b.leaves, a.missed + b.missed, a.edges + b.edges)
  }

  /** The end of a branch still needs an edge to where the branches meet. */
  predicate GoesOn(child: Flow) {
    child.end.reached && child.end.open
  }

  /** `o` is the cursor at the statement, `child` the consequence's flow.  The else
      clause's block is empty. */
  function IfFlow(s: Stmt, o: Cursor, child: Flow): Flow
    requires s.If?
  {
    var other := o.reached && (s.alt.NoElse? || !Pruned(s.cond, true));
    Flow(Cursor(other || GoesOn(child), true), child.breaks, child.leaves,
         EnterMissed(s, o) + child.missed, child.edges + Count(GoesOn(child) && other))
  }

  function WhileFlow(s: Stmt, o: Cursor, child: Flow): Flow
    requires s.While?
  {
    var stops := o.reached && !Pruned(s.cond, true);
    Flow(Cursor(stops || child.breaks, true), false, child.leaves, EnterMissed(s, o) + child.missed,
         child.edges + Count(stops) + Count(GoesOn(child)) - Count(stops || child.breaks))
  }

  function ForInFlow(s: Stmt, o: Cursor, child: Flow): Flow
    requires s.ForIn?
  {
    Flow(Cursor(o.reached || child.breaks, true), false, child.leaves, EnterMissed(s, o) + child.missed,
         child.edges + Count(o.reached) + Count(GoesOn(child)) - Count(o.reached || child.breaks))
  }

  /** What paths miss before the child is built. */
  function EnterMissed(s: Stmt, o: Cursor): set<NodeId>
    requires s.If? || IsLoop(s)
  {
    match s
    case If(id, cond, cons, alt) =>
      Only(!o.reached, id) + Only(!o.reached, cond.id) + Only(!o.reached || Pruned(cond, false), cons.id)
      + if alt.ElseClause? then Only(!o.reached || Pruned(cond, true), alt.id) else {}
    case While(id, cond, body) =>
      Only(!o.reached, id) + Only(!o.reached, cond.id) + Only(!o.reached || Pruned(cond, false), body.id)
    case ForIn(id, right, body) => Only(!o.reached, id) + Only(!o.reached, right) + Only(!o.reached, body.id)
  }

  // ----- functions -----

  /** The complexity of a function with this flow: the edge that closes it counts if the
      way to it is found, and so does its end if a path leads there. */
  function Cyclomatic(body: Flow): int {
    body.edges + 1 - Count(body.leaves && !body.end.reached)
  }

  datatype Record = Record(node: NodeId, complexity: int)

  const START := Cursor(true, true)

  /** The functions that building a statement adds, in their order. */
  function Records(s: Stmt): seq<Record> {
    match s
    case Block(_, _, children) => RecordsAll(children)
    case If(_, _, cons, _) => Records(cons)
    case While(_, _, body) => Records(body)
    case ForIn(_, _, body) => Records(body)
    case Function(id, _, body) => [Record(id, Cyclomatic(FlowOf(body, START)))] + Records(body)
    case _ => []
  }

  function RecordsAll(ss: Stmts): seq<Record> {
    match ss
    case Nil => []
    case Cons(s, rest) => Records(s) + RecordsAll(rest)
  }

  /** A path that is not there leads nowhere. */
  lemma {:induction false} NoWayIn(s: Stmt, c: Cursor)
    requires !c.reached
    ensures var f := FlowOf(s, c); !f.end.reached && !f.breaks && !f.leaves && f.edges == 0
  {
    match s
    case Block(_, _, children) => NoWayInAll(children, c);
    case If(_, _, cons, _) => NoWayIn(cons, Cursor(false, true));
    case While(_, _, body) => NoWayIn(body, Cursor(false, true));
    case ForIn(_, _, body) => NoWayIn(body, Cursor(false, true));
    case _ =>
  }

  lemma {:induction false} NoWayInAll(ss: Stmts, c: Cursor)
    requires !c.reached
    ensures var f := FlowAll(ss, c); !f.end.reached && !f.breaks && !f.leaves && f.edges == 0
  {
    match ss
    case Nil =>
    case Cons(s, rest) =>
      NoWayIn(s, c);
      NoWayInAll(rest, FlowOf(s, c).end);
  }
}
