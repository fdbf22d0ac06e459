/** When the unreachable-code report tells the truth, read off the syntax. */
module CfgHonest {
  import opened CfgSyntax
  import opened CfgRuns
  import opened CfgGraph
  import opened CfgTold

  /** No node of an executed statement is told where a run can get to it.  `lost` says that
      the builder has lost the way to the statement. */
  predicate Honest(s: Stmt, lost: bool) {
    match s
    case Simple(_, _) => !lost
    case Block(_, _, children) => HonestAll(children, lost, true)
    case If(_, cond, cons, _) => !lost && (CanHold(cond) ==> Honest(cons, false))
    case While(_, _, body) => !lost && (CanGo(s) ==> Honest(body, false))
    case ForIn(_, _, body) => !lost && Honest(body, false)
    case Function(_, _, body) => !lost && Honest(body, false)
    case _ => true
  }

  /** The same for a list that is entered.  Its declarations are set up in any case, its
      other statements as long as some run is `live`. */
  predicate HonestAll(ss: Stmts, lost: bool, live: bool) {
    match ss
    case Nil => true
    case Cons(s, rest) =>
      (live || Hoists(s) ==> Honest(s, lost)) && HonestAll(rest, LostAfter(s, lost), live && CanEnd(s))
  }

  /** At the top of a program, the way is lost wherever the body of a declaration loses it. */
  predicate LostAfterTop(s: Stmt, lost: bool) {
    if Revisited(s) then LostAfter(s.body, false) else LostAfter(s, lost)
  }

  predicate HonestTop(ss: Stmts, lost: bool, live: bool) {
    match ss
    case Nil => true
    case Cons(s, rest) =>
      (live || Hoists(s) ==> Honest(s, lost)) && HonestTop(rest, LostAfterTop(s, lost), live && CanEnd(s))
  }

  predicate HonestProgram(ss: Stmts) {
    HonestTop(ss, false, true)
  }

  // ----- the sets behind it -----

  function ReportedTop(ss: Stmts, lost: bool): set<NodeId> {
    match ss
    case Nil => {}
    case Cons(s, rest) => ReportedBy(s, lost) + ReportedTop(rest, LostAfterTop(s, lost))
  }

  /** Building a declaration's body once more reports nothing new. */
  lemma {:induction false} ExpandedReports(ss: Stmts, lost: bool)
    ensures ReportedByAll(Expanded(ss), lost) == ReportedTop(ss, lost)
  {
    match ss
    case Nil =>
    case Cons(s, rest) =>
      ExpandedReports(rest, LostAfterTop(s, lost));
      if Revisited(s) {
        var more := Cons(s.body, Expanded(rest));
        assert ReportedByAll(more, false) == ReportedBy(s.body, false)
            + ReportedByAll(Expanded(rest), LostAfter(s.body, false));
        assert LostAfter(s, lost) == false;
      }
  }

  lemma HeadInIds(s: Stmt)
    ensures s.id in Ids(s)
  {
  }

  lemma {:induction false} ReportedInIds(s: Stmt, lost: bool)
    ensures ReportedBy(s, lost) <= Ids(s)
  {
    match s
    case Block(_, _, children) => ReportedInIdsAll(children, lost);
    case If(_, _, cons, _) => HeadInIds(cons); ReportedInIds(cons, false);
    case While(_, _, body) => HeadInIds(body); ReportedInIds(body, false);
    case ForIn(_, _, body) => ReportedInIds(body, false);
    case Function(_, _, body) => ReportedInIds(body, false);
    case _ =>
  }

  lemma {:induction false} ReportedInIdsAll(ss: Stmts, lost: bool)
    ensures ReportedByAll(ss, lost) <= IdsAll(ss)
  {
    match ss
    case Nil =>
    case Cons(s, rest) =>
      ReportedInIds(s, lost);
      ReportedInIdsAll(rest, LostAfter(s, lost));
  }

  lemma PrunedNeverRuns(cond: Expr)
    ensures Pruned(cond, false) ==> !CanHold(cond)
    ensures Pruned(cond, true) ==> !CanFail(cond)
  {
    if ConditionNode(cond).Some? {
      ConstantsAreSound(ConditionNode(cond).value, TRUE);
      ConstantsAreSound(ConditionNode(cond).value, FALSE);
    }
  }

  // ----- honesty is the disjointness of the two -----

  lemma UnionApart(a: set<NodeId>, b: set<NodeId>, x: set<NodeId>)
    ensures a + b !! x <==> a !! x && b !! x
  {
  }

  lemma IfHonest(s: Stmt, lost: bool)
    requires s.If? && UniqueIds(s)
    requires Honest(s.cons, false) <==> ReportedBy(s.cons, false) !! Does(s.cons)
    ensures Honest(s, lost) <==> ReportedBy(s, lost) !! Does(s)
  {
    var X, R := Does(s), ReportedBy(s.cons, false);
    BranchesApart(s);
    ReportedInIds(s.cons, false);
    ChildAlone(s, R);
    hide Does, Pruned, UniqueIds, CanHold;
    var first, second := Only(lost, s.id), Only(Pruned(s.cond, false), s.cons.id);
    var third := if s.alt.ElseClause? then Only(Pruned(s.cond, true), s.alt.id) else {};
    UnionApart(first + second + R, third, X);
    UnionApart(first + second, R, X);
    UnionApart(first, second, X);
  }

  /** Neither branch's own node is reported where it can run. */
  lemma BranchesApart(s: Stmt)
    requires s.If? && UniqueIds(s)
    ensures s.id in Does(s)
    ensures Pruned(s.cond, false) ==> s.cons.id !in Does(s)
    ensures s.alt.ElseClause? && Pruned(s.cond, true) ==> s.alt.id !in Does(s)
  {
    PrunedNeverRuns(s.cond);
    DoneInIds(s.cons);
    HeadInIds(s.cons);
    if s.alt.ElseClause? {
      DoneInIds(s.alt.body);
    }
    hide Pruned, CanHold, CanFail;
  }

  /** Nodes of a branch or a loop's body are executed only there. */
  lemma ChildAlone(s: Stmt, R: set<NodeId>)
    requires (s.If? || IsLoop(s)) && UniqueIds(s) && R <= Ids(Child(s))
    ensures R !! Does(s) <==> (CanEnter(s) ==> R !! Does(Child(s)))
  {
    DoneInIds(Child(s));
    if s.If? && s.alt.ElseClause? {
      DoneInIds(s.alt.body);
    }
    hide CanHold, CanFail, CanGo, Ids;
    var D := if CanEnter(s) then Does(Child(s)) else {};
    var others := if s.If? then ElseIds(s.alt) + {s.id, s.cond.id} else {s.id, GuardId(s)};
    assert D <= Does(s) <= D + others;
  }

  /** Some run gets to the consequence, or into the loop. */
  predicate CanEnter(s: Stmt)
    requires s.If? || IsLoop(s)
  {
    if s.If? then CanHold(s.cond) else CanGo(s)
  }

  lemma LoopHonest(s: Stmt, lost: bool)
    requires IsLoop(s) && UniqueIds(s)
    requires Honest(s.body, false) <==> ReportedBy(s.body, false) !! Does(s.body)
    ensures Honest(s, lost) <==> ReportedBy(s, lost) !! Does(s)
  {
    assert Does(s) == {s.id, GuardId(s)} + if CanGo(s) then Does(s.body) else {};
    DoneInIds(s.body);
    HeadInIds(s.body);
    ReportedInIds(s.body, false);
    if s.While? {
      PrunedNeverRuns(s.cond);
    }
  }

  lemma {:induction false} HonestExactly(s: Stmt, lost: bool)
    requires UniqueIds(s)
    ensures Honest(s, lost) <==> ReportedBy(s, lost) !! Does(s)
  {
    match s
    case Block(_, role, children) =>
      HonestExactlyAll(children, lost, true);
      ReportedInIdsAll(children, lost);
    case If(_, _, cons, _) =>
      HonestExactly(cons, false);
      IfHonest(s, lost);
    case While(_, _, body) =>
      HonestExactly(body, false);
      LoopHonest(s, lost);
    case ForIn(_, _, body) =>
      HonestExactly(body, false);
      LoopHonest(s, lost);
    case Function(_, _, body) =>
      HonestExactly(body, false);
      ReportedInIds(body, false);
    case _ =>
  }

  lemma HeadHonest(s: Stmt, rest: Stmts, told: set<NodeId>, more: set<NodeId>, live: bool)
    requires UniqueIdsAll(Cons(s, rest)) && told <= Ids(s) && more <= IdsAll(rest)
    ensures told + more !! DoesAll(Cons(s, rest), live) <==>
            (live || Hoists(s) ==> told !! Does(s)) && more !! DoesAll(rest, live && CanEnd(s))
  {
    DoneInIds(s);
    DoneInIdsAll(rest, live && CanEnd(s));
    var now, later := if live || Hoists(s) then Does(s) else {}, DoesAll(rest, live && CanEnd(s));
    assert DoesAll(Cons(s, rest), live) == now + later;
    hide *;
    assert told + more !! now + later <==> told !! now && more !! later;
  }

  lemma {:induction false} HonestExactlyAll(ss: Stmts, lost: bool, live: bool)
    requires UniqueIdsAll(ss)
    ensures HonestAll(ss, lost, live) <==> ReportedByAll(ss, lost) !! DoesAll(ss, live)
  {
    match ss
    case Nil =>
    case Cons(s, rest) =>
      HonestExactly(s, lost);
      HonestExactlyAll(rest, LostAfter(s, lost), live && CanEnd(s));
      ReportedInIds(s, lost);
      ReportedInIdsAll(rest, LostAfter(s, lost));
      HeadHonest(s, rest, ReportedBy(s, lost), ReportedByAll(rest, LostAfter(s, lost)), live);
  }

  lemma {:induction false} ReportedInIdsTop(ss: Stmts, lost: bool)
    ensures ReportedTop(ss, lost) <= IdsAll(ss)
  {
    match ss
    case Nil =>
    case Cons(s, rest) =>
      ReportedInIds(s, lost);
      ReportedInIdsTop(rest, LostAfterTop(s, lost));
  }

  lemma {:induction false} HonestExactlyTop(ss: Stmts, lost: bool, live: bool)
    requires UniqueIdsAll(ss)
    ensures HonestTop(ss, lost, live) <==> ReportedTop(ss, lost) !! DoesAll(ss, live)
  {
    match ss
    case Nil =>
    case Cons(s, rest) =>
      HonestExactly(s, lost);
      HonestExactlyTop(rest, LostAfterTop(s, lost), live && CanEnd(s));
      ReportedInIds(s, lost);
      ReportedInIdsTop(rest, LostAfterTop(s, lost));
      HeadHonest(s, rest, ReportedBy(s, lost), ReportedTop(rest, LostAfterTop(s, lost)), live);
  }

  // ----- programs that are honest in any case -----

  /** Holds when no `break` leaves the statement: each one sits in a loop inside it. */
  predicate NoBareBreak(s: Stmt) {
    match s
    case Block(_, role, children) => role.InOrder? ==> NoBareBreakAll(children)
    case If(_, _, cons, alt) => NoBareBreak(cons) && (alt.ElseClause? ==> NoBareBreak(alt.body))
    case Break(_) => false
    case _ => true
  }

  predicate NoBareBreakAll(ss: Stmts) {
    match ss
    case Nil => true
    case Cons(s, rest) => NoBareBreak(s) && NoBareBreakAll(rest)
  }

  /** The builder sees every jump and no more: no `break` of an else body leaves that
      body, unless the loop it ends can end by its guard (`soft`), no function's body is
      built inline, and no declaration stands where the way is lost.  The builder does not
      look into else bodies (`elseClause` has no `_buildCfgBlock`), so a jump there is
      lost. */
  predicate Traceable(s: Stmt, soft: bool) {
    match s
    case Block(_, role, children) => role.InOrder? && TraceableAll(children, soft) && HoistsFound(children, false)
    case If(_, _, cons, alt) =>
      && Traceable(cons, soft)
      && (alt.ElseClause? ==> (soft || NoBareBreak(alt.body)) && Traceable(alt.body, soft))
    case While(_, _, body) => Traceable(body, EndsByGuard(s))
    case ForIn(_, _, body) => Traceable(body, true)
    case Function(_, _, body) => Traceable(body, false)
    case _ => true
  }

  predicate TraceableAll(ss: Stmts, soft: bool) {
    match ss
    case Nil => true
    case Cons(s, rest) => Traceable(s, soft) && TraceableAll(rest, soft)
  }

  /** The declarations of a list stand where the builder has not lost the way. */
  predicate HoistsFound(ss: Stmts, lost: bool) {
    match ss
    case Nil => true
    case Cons(s, rest) => (Hoists(s) ==> !lost) && HoistsFound(rest, LostAfter(s, lost))
  }

  lemma {:induction false} NoBareBreakNoBreak(s: Stmt)
    requires NoBareBreak(s)
    ensures !CanBreak(s)
  {
    match s
    case Block(_, role, children) => if role.InOrder? { NoBareBreakNoBreakAll(children); }
    case If(_, _, cons, alt) =>
      NoBareBreakNoBreak(cons);
      if alt.ElseClause? {
        NoBareBreakNoBreak(alt.body);
      }
    case _ =>
  }

  lemma {:induction false} NoBareBreakNoBreakAll(ss: Stmts)
    requires NoBareBreakAll(ss)
    ensures !CanBreakAll(ss)
  {
    match ss
    case Nil =>
    case Cons(s, rest) =>
      NoBareBreakNoBreak(s);
      NoBareBreakNoBreakAll(rest);
  }

  lemma {:induction false} BreaksAreSeen(s: Stmt)
    requires Traceable(s, false)
    ensures CanBreak(s) ==> BreaksOut(s)
  {
    match s
    case Block(_, _, children) => BreaksAreSeenAll(children);
    case If(_, _, cons, alt) =>
      BreaksAreSeen(cons);
      if alt.ElseClause? {
        NoBareBreakNoBreak(alt.body);
      }
    case _ =>
  }

  lemma {:induction false} BreaksAreSeenAll(ss: Stmts)
    requires TraceableAll(ss, false)
    ensures CanBreakAll(ss) ==> BreaksOutAll(ss)
  {
    match ss
    case Nil =>
    case Cons(s, rest) =>
      BreaksAreSeen(s);
      BreaksAreSeenAll(rest);
  }

  /** Where the builder sees every jump, it loses the way only where no run goes on. */
  lemma {:induction false} TraceableHonest(s: Stmt, soft: bool)
    requires Traceable(s, soft)
    ensures Honest(s, false)
    ensures CanEnd(s) ==> !LostAfter(s, false)
  {
    match s
    case Block(_, _, children) => TraceableHonestAll(children, soft, false, true);
    case If(_, cond, cons, _) => TraceableHonest(cons, soft);
    case While(_, _, body) =>
      TraceableHonest(body, EndsByGuard(s));
      if !EndsByGuard(s) {
        BreaksAreSeen(body);
        PrunedNeverRuns(s.cond);
      }
    case ForIn(_, _, body) => TraceableHonest(body, true);
    case Function(_, _, body) => TraceableHonest(body, false);
    case _ =>
  }

  lemma {:induction false} TraceableHonestAll(ss: Stmts, soft: bool, lost: bool, live: bool)
    requires TraceableAll(ss, soft) && HoistsFound(ss, lost) && (live ==> !lost)
    ensures HonestAll(ss, lost, live)
    ensures live && CanEndAll(ss) ==> !LostAfterAll(ss, lost)
  {
    match ss
    case Nil =>
    case Cons(s, rest) =>
      TraceableHonest(s, soft);
      TraceableHonestAll(rest, soft, LostAfter(s, lost), live && CanEnd(s));
  }

  /** The bodies of declarations do not lose the way. */
  predicate DeclarationsPass(ss: Stmts) {
    match ss
    case Nil => true
    case Cons(s, rest) => (Revisited(s) ==> !LostAfter(s.body, false)) && DeclarationsPass(rest)
  }

  lemma {:induction false} TraceableProgramHonest(ss: Stmts, lost: bool, live: bool)
    requires TraceableAll(ss, false) && HoistsFound(ss, lost) && DeclarationsPass(ss) && (live ==> !lost)
    ensures HonestTop(ss, lost, live)
  {
    match ss
    case Nil =>
    case Cons(s, rest) =>
      TraceableHonest(s, false);
      TraceableProgramHonest(rest, LostAfterTop(s, lost), live && CanEnd(s));
  }
}
