/** When every run follows the paths of the graph: no executed node is recorded in a block
    that no path leads to. */
module CfgFollowed {
  import opened CfgSyntax
  import opened CfgRuns
  import opened CfgTold
  import opened CfgHonest
  import opened CfgFlow

  /** Paths get to every node of an executed statement that is recorded.  `c` is the
      cursor at the statement. */
  predicate Followed(s: Stmt, c: Cursor) {
    match s
    case Plain(_) => true
    case Simple(_, _) => Opened(c).reached
    case Block(_, _, children) => FollowedAll(children, c, true)
    case If(_, cond, cons, _) => Opened(c).reached && (CanHold(cond) ==> Followed(cons, START))
    case While(_, _, body) => Opened(c).reached && (CanGo(s) ==> Followed(body, START))
    case ForIn(_, _, body) => Opened(c).reached && Followed(body, START)
    case Function(_, _, body) => Opened(c).reached && Followed(body, START)
    case _ => c.reached
  }

  predicate FollowedAll(ss: Stmts, c: Cursor, live: bool) {
    match ss
    case Nil => true
    case Cons(s, rest) =>
      (live || Hoists(s) ==> Followed(s, c)) && FollowedAll(rest, FlowOf(s, c).end, live && CanEnd(s))
  }

  /** At the top of a program the body of a declaration is built once more, inline. */
  function TopFlow(s: Stmt, c: Cursor): Flow {
    if Revisited(s) then Both(FlowOf(s, c), FlowOf(s.body, Opened(c))) else FlowOf(s, c)
  }

  predicate FollowedTop(ss: Stmts, c: Cursor, live: bool) {
    match ss
    case Nil => true
    case Cons(s, rest) =>
      && (live || Hoists(s) ==> Followed(s, c) && (Revisited(s) ==> Followed(s.body, Opened(c))))
      && FollowedTop(rest, TopFlow(s, c).end, live && CanEnd(s))
  }

  predicate FollowedProgram(ss: Stmts) {
    FollowedTop(ss, START, true)
  }

  // ----- the sets behind it -----

  function MissedTop(ss: Stmts, c: Cursor): set<NodeId> {
    match ss
    case Nil => {}
    case Cons(s, rest) => TopFlow(s, c).missed + MissedTop(rest, TopFlow(s, c).end)
  }

  lemma ConsFlow(s: Stmt, rest: Stmts, c: Cursor)
    ensures FlowAll(Cons(s, rest), c) == Both(FlowOf(s, c), FlowAll(rest, FlowOf(s, c).end))
    ensures s.Function? ==> FlowOf(s, c).end == Opened(c)
  {
  }

  lemma {:induction false} ExpandedFlow(ss: Stmts, c: Cursor)
    ensures FlowAll(Expanded(ss), c).missed == MissedTop(ss, c)
  {
    hide FlowOf, FlowAll;
    match ss
    case Nil => assert FlowAll(Nil, c).missed == {} by { NoFlow(c); }
    case Cons(s, rest) =>
      ExpandedFlow(rest, TopFlow(s, c).end);
      if Revisited(s) {
        ConsFlow(s, Cons(s.body, Expanded(rest)), c);
        ConsFlow(s.body, Expanded(rest), Opened(c));
      } else {
        ConsFlow(s, Expanded(rest), c);
      }
  }

  lemma NoFlow(c: Cursor)
    ensures FlowAll(Nil, c).missed == {}
  {
  }

  lemma {:induction false} MissedInIds(s: Stmt, c: Cursor)
    ensures FlowOf(s, c).missed <= Ids(s)
  {
    match s
    case Block(_, _, children) => MissedInIdsAll(children, c);
    case If(_, cond, cons, _) =>
      HeadInIds(cons);
      MissedInIds(cons, Cursor(Opened(c).reached && !Pruned(cond, false), true));
    case While(_, cond, body) =>
      HeadInIds(body);
      MissedInIds(body, Cursor(Opened(c).reached && !Pruned(cond, false), true));
    case ForIn(_, _, body) => HeadInIds(body); MissedInIds(body, Cursor(Opened(c).reached, true));
    case Function(_, _, body) => MissedInIds(body, START);
    case _ =>
  }

  lemma {:induction false} MissedInIdsAll(ss: Stmts, c: Cursor)
    ensures FlowAll(ss, c).missed <= IdsAll(ss)
  {
    match ss
    case Nil =>
    case Cons(s, rest) =>
      MissedInIds(s, c);
      MissedInIdsAll(rest, FlowOf(s, c).end);
  }

  lemma {:induction false} MissedInIdsTop(ss: Stmts, c: Cursor)
    ensures MissedTop(ss, c) <= IdsAll(ss)
  {
    match ss
    case Nil =>
    case Cons(s, rest) =>
      MissedInIds(s, c);
      if Revisited(s) {
        MissedInIds(s.body, Opened(c));
      }
      MissedInIdsTop(rest, TopFlow(s, c).end);
  }

  // ----- following is the disjointness of the two -----

  lemma IfFollowed(s: Stmt, c: Cursor)
    requires s.If? && UniqueIds(s)
    requires Followed(s.cons, START) <==> FlowOf(s.cons, START).missed !! Does(s.cons)
    ensures Followed(s, c) <==> FlowOf(s, c).missed !! Does(s)
  {
    var o := Opened(c);
    var child := FlowOf(s.cons, Cursor(o.reached && !Pruned(s.cond, false), true));
    MissedInIds(s.cons, Cursor(o.reached && !Pruned(s.cond, false), true));
    PrunedNeverRuns(s.cond);
    BranchesApart(s);
    ChildAlone(s, child.missed);
    hide Does, Pruned, UniqueIds, CanHold, FlowOf;
    UnionApart(EnterMissed(s, o), child.missed, Does(s));
  }

  lemma LoopFollowed(s: Stmt, c: Cursor)
    requires IsLoop(s) && UniqueIds(s)
    requires Followed(s.body, START) <==> FlowOf(s.body, START).missed !! Does(s.body)
    ensures Followed(s, c) <==> FlowOf(s, c).missed !! Does(s)
  {
    var o := Opened(c);
    var b := Cursor(o.reached && (s.While? ==> !Pruned(s.cond, false)), true);
    var child := FlowOf(s.body, b);
    assert FlowOf(s, c).missed == EnterMissed(s, o) + child.missed;
    MissedInIds(s.body, b);
    LoopHead(s);
    ChildAlone(s, child.missed);
    hide FlowOf, Ids, UniqueIds, Pruned;
    UnionApart(EnterMissed(s, o), child.missed, Does(s));
  }

  /** The loop's own node is executed, and its body's only if some run gets there. */
  lemma LoopHead(s: Stmt)
    requires IsLoop(s) && UniqueIds(s)
    ensures s.id in Does(s) && (!CanGo(s) ==> s.body.id !in Does(s))
    ensures s.While? ==> Pruned(s.cond, false) ==> !CanGo(s)
    ensures s.ForIn? ==> CanGo(s)
  {
    HeadInIds(s.body);
    DoneInIds(s.body);
    if s.While? {
      PrunedNeverRuns(s.cond);
    }
  }

  lemma {:induction false} FollowedExactly(s: Stmt, c: Cursor)
    requires UniqueIds(s)
    ensures Followed(s, c) <==> FlowOf(s, c).missed !! Does(s)
  {
    match s
    case Block(_, _, children) =>
      FollowedExactlyAll(children, c, true);
      MissedInIdsAll(children, c);
    case If(_, _, cons, _) =>
      FollowedExactly(cons, START);
      IfFollowed(s, c);
    case While(_, _, body) =>
      FollowedExactly(body, START);
      LoopFollowed(s, c);
    case ForIn(_, _, body) =>
      FollowedExactly(body, START);
      LoopFollowed(s, c);
    case Function(_, _, body) =>
      FollowedExactly(body, START);
      MissedInIds(body, START);
    case _ =>
  }

  lemma {:induction false} FollowedExactlyAll(ss: Stmts, c: Cursor, live: bool)
    requires UniqueIdsAll(ss)
    ensures FollowedAll(ss, c, live) <==> FlowAll(ss, c).missed !! DoesAll(ss, live)
  {
    match ss
    case Nil =>
    case Cons(s, rest) =>
      FollowedExactly(s, c);
      FollowedExactlyAll(rest, FlowOf(s, c).end, live && CanEnd(s));
      MissedInIds(s, c);
      MissedInIdsAll(rest, FlowOf(s, c).end);
      HeadHonest(s, rest, FlowOf(s, c).missed, FlowAll(rest, FlowOf(s, c).end).missed, live);
  }

  /** Both builds of a declaration count. */
  lemma TopFollowed(s: Stmt, c: Cursor)
    requires UniqueIds(s)
    ensures TopFlow(s, c).missed <= Ids(s)
    ensures Followed(s, c) && (Revisited(s) ==> Followed(s.body, Opened(c))) <==> TopFlow(s, c).missed !! Does(s)
  {
    FollowedExactly(s, c);
    MissedInIds(s, c);
    if Revisited(s) {
      FollowedExactly(s.body, Opened(c));
      MissedInIds(s.body, Opened(c));
    }
    hide Followed, FlowOf;
  }

  lemma {:induction false} FollowedExactlyTop(ss: Stmts, c: Cursor, live: bool)
    requires UniqueIdsAll(ss)
    ensures FollowedTop(ss, c, live) <==> MissedTop(ss, c) !! DoesAll(ss, live)
  {
    hide TopFlow, Followed;
    match ss
    case Nil =>
    case Cons(s, rest) =>
      TopFollowed(s, c);
      FollowedExactlyTop(rest, TopFlow(s, c).end, live && CanEnd(s));
      MissedInIdsTop(rest, TopFlow(s, c).end);
      HeadHonest(s, rest, TopFlow(s, c).missed, MissedTop(rest, TopFlow(s, c).end), live);
  }
}
