/** Abstract syntax of the TypeScript statements the control-flow-graph builder
    understands, and what it means to run them.

    Every node carries the identifier its `commonNode` has in the source; a parsed
    tree never uses one identifier twice (see UniqueIds). */
module CfgSyntax {
  import opened Options

  type NodeId = nat

  /** Condition expressions, as far as the builder can tell them apart.  `Childed`
      is any node built on `childedCommonNode` (array, object, await, every unhandled
      kind); `Opaque` is any other node without a constant value. */
  datatype Expr =
    | BoolLit(id: NodeId, value: bool)
    | Binary(id: NodeId, isAnd: bool, left: Expr, right: Expr)
    | Paren(id: NodeId, inner: Expr)
    | Childed(id: NodeId)
    | Opaque(id: NodeId)

  datatype Else = NoElse | ElseClause(id: NodeId, body: Stmt)

  /** `Plain` has no block of its own; `Simple` is a call or a declaration, which
      becomes one instruction; `Block` is any node that only builds its children, and
      its `role` says whether these are run.  `Function` is any function that is not such
      a node; `declared` tells function declarations from arrow functions and methods. */
  datatype Stmt =
    | Plain(id: NodeId)
    | Simple(id: NodeId, kind: InstructionKind)
    | Block(id: NodeId, role: Role, children: Stmts)
    | If(id: NodeId, cond: Expr, cons: Stmt, alt: Else)
    | While(id: NodeId, cond: Expr, body: Stmt)
    | ForIn(id: NodeId, right: NodeId, body: Stmt)
    | Break(id: NodeId)
    | Continue(id: NodeId)
    | Return(id: NodeId)
    | Function(id: NodeId, declared: bool, body: Stmt)

  /** The children of a node are run in order where they stand.  Or they belong to a
      function expression or to a generator's declaration, which are built in place but
      not run there. */
  datatype Role = InOrder | Expression | Generator

  datatype Stmts = Nil | Cons(head: Stmt, tail: Stmts)

  datatype InstructionKind = Jump | Branch | Call | Assign

  // ----- constant conditions -----

  /** `binaryExpression.hasConstantTrue` and the leaves it reaches. */
  predicate ConstantTrue(e: Expr) {
    match e
    case BoolLit(_, v) => v
    case Binary(_, isAnd, l, r) => isAnd && ConstantTrue(l) && ConstantTrue(r)
    case _ => false
  }

  predicate ConstantFalse(e: Expr) {
    match e
    case BoolLit(_, v) => !v
    case Binary(_, isAnd, l, r) => isAnd && ConstantFalse(l) && ConstantFalse(r)
    case _ => false
  }

  /** The node a block's condition stands for: `getNode().getImpl()`.  Parentheses
      hand out the node inside them, unless that node is built on
      `childedCommonNode`; then the type assertion fails and the source
      dereferences nil. */
  function ConditionNode(cond: Expr): Option<Expr> {
    if !cond.Paren? then Some(cond)
    else if cond.inner.Paren? || cond.inner.Childed? then None
    else Some(cond.inner)
  }

  // ----- running a program -----

  /** What every opaque expression evaluates to, one valuation for every tick. */
  type Env = nat -> (NodeId -> bool)

  /** Truth of a condition.  Only literals, `&&` and parentheses are interpreted;
      every other expression may have any value at any time. */
  predicate Truth(e: Expr, value: NodeId -> bool) {
    match e
    case BoolLit(_, v) => v
    case Binary(id, isAnd, l, r) => if isAnd then Truth(l, value) && Truth(r, value) else value(id)
    case Paren(_, inner) => Truth(inner, value)
    case _ => value(e.id)
  }

  /** How a statement ends.  `Halted` is an execution cut off by the fuel, so that a
      diverging execution is described by all its finite prefixes. */
  datatype Outcome = Normal | Broke | Continued | Returned | Halted

  /** The nodes executed, in order, the way the statement ended, and the next tick. */
  datatype Run = Run(trace: seq<NodeId>, outcome: Outcome, clock: nat)

  /** Function declarations are set up when the list they stand in is entered. */
  predicate Hoists(s: Stmt) {
    (s.Function? && s.declared) || (s.Block? && s.role.Generator?)
  }

  function Hoisted(ss: Stmts): seq<NodeId> {
    match ss
    case Nil => []
    case Cons(s, rest) => (if Hoists(s) then [s.id] else []) + Hoisted(rest)
  }

  function Exec(s: Stmt, env: Env, t: nat, fuel: nat): Run
    decreases fuel, s, 1
  {
    match s
    case Plain(id) => Run([id], Normal, t)
    case Simple(id, _) => Run([id], Normal, t)
    case Block(id, role, children) =>
      if role.InOrder? then Prefixed([id], ExecList(children, env, t, fuel)) else Run([id], Normal, t)
    case If(id, cond, cons, alt) =>
      if Truth(cond, env(t)) then Prefixed([id, cond.id], Exec(cons, env, t + 1, fuel))
      else if alt.NoElse? then Run([id, cond.id], Normal, t + 1)
      else Prefixed([id, cond.id, alt.id], Exec(alt.body, env, t + 1, fuel))
    case While(id, cond, body) => Prefixed([id], ExecLoop(s, env, t, fuel))
    case ForIn(id, right, body) => Prefixed([id, right], ExecLoop(s, env, t, fuel))
    case Break(id) => Run([id], Broke, t)
    case Continue(id) => Run([id], Continued, t)
    case Return(id) => Run([id], Returned, t)
    case Function(id, _, _) => Run([id], Normal, t)
  }

  /** A list is entered: its declarations are set up, wherever it jumps later. */
  function ExecList(ss: Stmts, env: Env, t: nat, fuel: nat): Run
    decreases fuel, ss, 1
  {
    Prefixed(Hoisted(ss), ExecAll(ss, env, t, fuel))
  }

  function ExecAll(ss: Stmts, env: Env, t: nat, fuel: nat): Run
    decreases fuel, ss, 0
  {
    match ss
    case Nil => Run([], Normal, t)
    case Cons(s, rest) =>
      var r := Exec(s, env, t, fuel);
      if r.outcome == Normal then Prefixed(r.trace, ExecAll(rest, env, r.clock, fuel)) else r
  }

  predicate IsLoop(s: Stmt) {
    s.While? || s.ForIn?
  }

  /** Does the loop go round once more?  A for-in loop asks its iterator. */
  predicate LoopGuard(s: Stmt, value: NodeId -> bool)
    requires IsLoop(s)
  {
    if s.While? then Truth(s.cond, value) else value(s.right)
  }

  function GuardId(s: Stmt): NodeId
    requires IsLoop(s)
  {
    if s.While? then s.cond.id else s.right
  }

  function ExecLoop(s: Stmt, env: Env, t: nat, fuel: nat): Run
    requires IsLoop(s)
    decreases fuel, s, 0
  {
    if fuel == 0 then Run([], Halted, t)
    else if !LoopGuard(s, env(t)) then Run([GuardId(s)], Normal, t + 1)
    else
      var r := Prefixed([GuardId(s)], Exec(s.body, env, t + 1, fuel - 1));
      match r.outcome
      case Broke => r.(outcome := Normal)
      case Returned => r
      case Halted => r
      case _ => Prefixed(r.trace, ExecLoop(s, env, r.clock, fuel - 1))
  }

  function Prefixed(trace: seq<NodeId>, r: Run): Run {
    r.(trace := trace + r.trace)
  }

  // ----- shape of a program -----

  /** Every identifier in a statement. */
  function Ids(s: Stmt): set<NodeId> {
    match s
    case Block(id, _, children) => {id} + IdsAll(children)
    case If(id, cond, cons, alt) => {id, cond.id} + Ids(cons) + ElseIds(alt)
    case While(id, cond, body) => {id, cond.id} + Ids(body)
    case ForIn(id, right, body) => {id, right} + Ids(body)
    case Function(id, _, body) => {id} + Ids(body)
    case _ => {s.id}
  }

  function ElseIds(e: Else): set<NodeId> {
    match e
    case NoElse => {}
    case ElseClause(id, body) => {id} + Ids(body)
  }

  function IdsAll(ss: Stmts): set<NodeId> {
    match ss
    case Nil => {}
    case Cons(s, rest) => Ids(s) + IdsAll(rest)
  }

  predicate UniqueIds(s: Stmt) {
    match s
    case Block(id, _, children) => id !in IdsAll(children) && UniqueIdsAll(children)
    case If(id, cond, cons, alt) =>
      && id != cond.id && {id, cond.id} !! Ids(cons) && {id, cond.id} !! ElseIds(alt)
      && Ids(cons) !! ElseIds(alt) && UniqueIds(cons)
      && (alt.ElseClause? ==> alt.id !in Ids(alt.body) && UniqueIds(alt.body))
    case While(id, cond, body) => id != cond.id && {id, cond.id} !! Ids(body) && UniqueIds(body)
    case ForIn(id, right, body) => id != right && {id, right} !! Ids(body) && UniqueIds(body)
    case Function(id, _, body) => id !in Ids(body) && UniqueIds(body)
    case _ => true
  }

  predicate UniqueIdsAll(ss: Stmts) {
    match ss
    case Nil => true
    case Cons(s, rest) => UniqueIds(s) && UniqueIdsAll(rest) && Ids(s) !! IdsAll(rest)
  }

  /** Jumps sit inside a loop of the same function.  Else bodies are included: a
      parsed program obeys this everywhere. */
  predicate WellNested(s: Stmt, inLoop: bool) {
    match s
    case Block(_, role, children) => WellNestedAll(children, inLoop && role.InOrder?)
    case If(_, _, cons, alt) =>
      WellNested(cons, inLoop) && (alt.ElseClause? ==> WellNested(alt.body, inLoop))
    case While(_, _, body) => WellNested(body, true)
    case ForIn(_, _, body) => WellNested(body, true)
    case Function(_, _, body) => WellNested(body, false)
    case Break(_) => inLoop
    case Continue(_) => inLoop
    case _ => true
  }

  predicate WellNestedAll(ss: Stmts, inLoop: bool) {
    match ss
    case Nil => true
    case Cons(s, rest) => WellNested(s, inLoop) && WellNestedAll(rest, inLoop)
  }

  /** A loop that its guard can end: not a while whose condition is constantly true. */
  predicate EndsByGuard(s: Stmt)
    requires IsLoop(s)
  {
    s.While? && ConditionNode(s.cond).Some? ==> !ConstantTrue(ConditionNode(s.cond).value)
  }

  /** What a function runs when it is called. */
  predicate IsFunction(f: Stmt) {
    f.Function? || (f.Block? && !f.role.InOrder?)
  }

  function ExecBody(f: Stmt, env: Env, t: nat, fuel: nat): Run
    requires IsFunction(f)
  {
    if f.Function? then Exec(f.body, env, t, fuel) else ExecList(f.children, env, t, fuel)
  }

  /** A declaration whose body a program builds twice. */
  predicate Revisited(s: Stmt) {
    s.Function? && s.declared
  }

  /** What a program builds: `program` visits its children, and a function declaration
      hands both itself and its body to the visitor, so that its body is built once more,
      inline. */
  function Expanded(ss: Stmts): Stmts {
    match ss
    case Nil => Nil
    case Cons(s, rest) =>
      if Revisited(s) then Cons(s, Cons(s.body, Expanded(rest))) else Cons(s, Expanded(rest))
  }

  /** `f` is a function written somewhere in `s`. */
  predicate HasFunction(s: Stmt, f: Stmt) {
    match s
    case Block(_, role, children) => (!role.InOrder? && s == f) || HasFunctionAll(children, f)
    case If(_, _, cons, alt) => HasFunction(cons, f) || (alt.ElseClause? && HasFunction(alt.body, f))
    case While(_, _, body) => HasFunction(body, f)
    case ForIn(_, _, body) => HasFunction(body, f)
    case Function(_, _, body) => s == f || HasFunction(body, f)
    case _ => false
  }

  predicate HasFunctionAll(ss: Stmts, f: Stmt) {
    match ss
    case Nil => false
    case Cons(s, rest) => HasFunction(s, f) || HasFunctionAll(rest, f)
  }

  // ----- facts about running -----

  /** A condition the builder calls constant really has that value, whatever the
      environment, and even through the parentheses the builder looks through. */
  lemma {:induction false} ConstantsAreSound(e: Expr, value: NodeId -> bool)
    ensures ConstantTrue(e) ==> Truth(e, value)
    ensures ConstantFalse(e) ==> !Truth(e, value)
  {
    match e
    case Binary(_, _, l, r) =>
      ConstantsAreSound(l, value);
      ConstantsAreSound(r, value);
    case _ =>
  }

  // ----- what a constant condition is -----

  /** What a condition joins. */
  function Leaves(e: Expr): seq<Expr> {
    match e
    case Binary(_, _, l, r) => Leaves(l) + Leaves(r)
    case _ => [e]
  }

  predicate OnlyAnds(e: Expr) {
    e.Binary? ==> e.isAnd && OnlyAnds(e.left) && OnlyAnds(e.right)
  }

  /** The condition is this literal, or joins nothing but this literal by `&&`. */
  predicate IsConstant(e: Expr, value: bool) {
    OnlyAnds(e) && forall x <- Leaves(e) :: x.BoolLit? && x.value == value
  }

  /** The same, or one pair of parentheses around it. */
  predicate Literally(cond: Expr, value: bool) {
    IsConstant(if cond.Paren? then cond.inner else cond, value)
  }

  lemma {:induction false} ConstantsExactly(e: Expr)
    ensures ConstantTrue(e) <==> IsConstant(e, true)
    ensures ConstantFalse(e) <==> IsConstant(e, false)
  {
    match e
    case Binary(_, _, l, r) =>
      ConstantsExactly(l);
      ConstantsExactly(r);
    case _ =>
  }
}
