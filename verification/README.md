# ts_inspector: a verified model

A Dafny model of the parts of ts_inspector that are hardest to get right, with proofs of
what they keep. Six components are covered.

**Control-flow graphs.** `CfgSyntax` has the statements the graph builder understands and
what it means to run them: every opaque condition may have any value at any time, and a
run may be cut off anywhere, so that a diverging program is described by all its finite
runs. Entering a list of statements sets up the functions declared directly in it,
wherever the list jumps later; a function that is set up may be called, and a function
that is never set up is not. `CfgBuilder` is the builder as the source has it: objects for
blocks and functions, a cursor, stacks for `break`, `continue` and functions. `CfgGraph`
says what graph each statement adds, and every builder method is tied to it. On top of
that:

- `CfgInvariant` and `CfgGrowth`: what every step keeps (edges recorded in both
  directions, every block in one function, edges inside their function, stacks restored,
  only the current and new blocks written to).
- `CfgRuns`: exactly the nodes that are executed, by the program or by a function that is
  set up, read off the syntax.
- `CfgTold` and `CfgTelling`: exactly the nodes that are reported as unreachable, read off
  the syntax, step by step with the builder.
- `CfgHonest` and `CfgReport`: the report is right, which means that no reported node is
  ever executed, if and only if the program is honest. A program is dishonest where the
  builder loses the way to a statement that a run can reach. It does so in four ways: a
  `break` in an else body is not seen (else clauses build nothing); the body of a
  function expression is built inline where it does not run; the body of a top-level
  function declaration is built once more, inline, because the visitor of a program's
  children goes on into it after the function has been built; and a declaration behind a
  jump is built where it stands, although it is set up beforehand.
- `CfgFlow` reads off the syntax where the paths of the graph lead; `CfgReach`,
  `CfgEntering` and `CfgReaching` prove it step by step with the builder, and
  `CfgRecords` for a program and every function in it: the blocks that paths lead to, the
  nodes recorded only elsewhere, and the edges that are used.
- `CfgFollowed` and `CfgReport`: runs follow the edges of every function, so that executed
  nodes are recorded only in reachable blocks, if and only if a condition on the syntax
  holds.
- `CfgComplexity`: the complexity of every function, whatever its conditions and jumps,
  read off the syntax; when it is one more than the decisions the graph shows, and when
  McCabe's count. A program also shows the decisions of its declarations.
- `CfgBranches`: what pruning does, in terms of the literals of a condition and of the
  edges of the finished graph: for every if and while of a program, at any depth, either
  the branch is reported or an edge leads from the condition to it. `CfgCode`: the
  instructions of the graph, all of them and each once.
- `CfgPaths` and `CfgWalks`: every run is a path of the graph, node by node in the order of
  execution, with the rounds of its loops, its jumps and its returns.
- `CfgSearch`: the recursive searches over the objects visit exactly the reachable blocks,
  and the analysis as a whole, from a program's tree to its report.
- `CfgLimits`: exactly which programs get a graph, and families of programs whose report
  is wrong.

**Edits in a session.** `Edits` describes edits of single leaves of a syntax tree, each of
which moves the offsets of all other nodes, and proves that the series of edits made by
"invert" and "apply deMorgan's" carries out a rewriting of the tree. `EditSession` is the
session over mutable elements. `TextDiff` finds the one edit that is sent to the client,
and `Positions` translates offsets to lines and columns and back, and says in terms of
line breaks alone which positions are right. The operator table is the one in the code,
where the opposite of `<=` is `>=`; `EditMeaning` says what the rewritten condition means:
the negation with negated operands, except for a `<=` between equal sides.

**The source map of the type-check block.** `TcbMap` has parts and statements as values,
`TcbScopes` the tree of scopes and every way to write to it, `TcbBuilder` the same with
objects changed in place. However a block is generated, its final text and offsets are
exact, and `TcbText` says what the text is, by a tree of texts that knows nothing of parts
and offsets; a part whose recorded end lies behind its text (the result of closing a scope after
which the root grew) is the only thing that can make a lookup answer with the wrong part.
`TcbShift` translates template expressions through nested statements whose parts share
their template offsets, and shows what each part reads, where it comes from, and when the
final shift moves each of them once. `TcbTypes` says which TypeScript expression the text
is, and that checking it says what checking the template's expression says.

**Angular microsyntax and CSS selectors.** `MicroExpression` scans expressions,
`Microsyntax` is the parser for structural directives, with reads out of range as an
outcome of their own and a termination measure for every input, and `MicroRoundTrip`
prints and parses statements. `MicroGrammar` is a grammar of expressions with alphabets of
its own, and says what the scanner makes of them. `Selectors` is the selector parser, and
`SelectorGrammar` has the token sequences it takes, and what they mean.

**Usages in class hierarchies.** `Usages` removes and re-propagates the usages of a class
in all its ancestors, over mutable classes that may reach an ancestor on several paths.
Removing usages never lowers the recorded access: the source computes it on a copy of the
definition that it then drops.

**Scanner state and scalar typing.** `TagCodec` saves a tag stack in a bounded buffer and
restores it, byte by byte. `YamlScalar` is the automaton that types plain scalars, proved equal to the
JSON schema of YAML 1.2.2, section 10.2.2, and the loop that feeds it.

Characters stand for bytes, or for runes where the source works on runes. Objects carry
ghost numbers or ghost values where a proof needs a name for them.

`dafny verify dfyconfig.toml` checks the project.

## Model

| member | source | states |
|---|---|---|
| CfgSyntax.ConstantsAreSound | ast/manipulation/binary_expression.go:123-137 | A condition that is called constantly true (false) evaluates to true (false) whatever its opaque parts evaluate to. |
| CfgSyntax.ConstantsExactly | ast/manipulation/binary_expression.go:123-137 | A condition is called constantly true (false) if and only if nothing but `&&` joins its leaves and every leaf is the literal `true` (`false`). |
| CfgBuilder.Cfg.AddBlock | ast/manipulation/cfg.go:185-190 | A new block joins the current function only, and nothing else of the graph changes. |
| CfgBuilder.Cfg.AddEdge | ast/manipulation/cfg.go:180-183 | Both ends record the edge, every other block keeps its edges, and the heap still represents the graph. |
| CfgBuilder.Cfg.AddInstruction | ast/manipulation/cfg.go:58-66 | The instruction lands in the current block, or in a new edgeless block when a jump has closed the current one. |
| CfgBuilder.Cfg.PeekBreakBlock | ast/manipulation/cfg.go:77-84 | The innermost target of `break`; nothing exactly when the stack is empty. |
| CfgBuilder.Cfg.PeekContinueBlock | ast/manipulation/cfg.go:86-93 | The innermost target of `continue`; nothing exactly when the stack is empty. |
| CfgBuilder.Cfg.BuildJump | ast/manipulation/break.go:25-32 | A jump gets its own block, with one edge in and one edge to the target, and stays current. |
| CfgBuilder.Cfg.BuildReturn | ast/manipulation/return.go:14-30 | A return gets a block that leads to the function's end, and an unconnected block becomes current. |
| CfgBuilder.Cfg.BuildIf | ast/manipulation/if_statement.go:47-107 | The objects represent the graph of an if statement with constant branches pruned and the else body skipped; on failure the error of the specification. |
| CfgBuilder.Cfg.BuildWhile | ast/manipulation/while_statement.go:15-56 | The objects represent the graph of a while statement, its edges pruned by a constant condition. |
| CfgBuilder.Cfg.BuildForIn | ast/manipulation/for_in_statement.go:16-60 | The objects represent the graph of a for-in statement: initialise, next, body and after. |
| CfgBuilder.Cfg.BuildFunction | ast/manipulation/common.go:443-473 | A nested function gets its own start and end, and the outer function goes on where it was. |
| CfgBuilder.Cfg.Build | ast/manipulation/common.go:142-144 | Building any statement on the heap agrees with the graph specification, errors included; only new objects join. |
| CfgBuilder.Cfg.BuildAll | ast/manipulation/common.go:332-344 | The same for a list of children, which stops at the first error. |
| CfgBuilder.Cfg.VisitChildren | ast/manipulation/function_declaration.go:43-53 | The visitor builds each child in turn, and the body of a top-level declaration once more, inline; the objects represent the graph of that expanded list. |
| CfgBuilder.Cfg.BuildProgram | ast/manipulation/program.go:13-47 | On a fresh builder, the whole program's objects represent its graph, with the bodies of its declarations built inline, or the build fails exactly as specified. |
| CfgInvariant.AddEdgeKeeps | ast/manipulation/cfg.go:180-183 | An edge between two blocks of the current function keeps `After` and `Before` dual as multisets and every block in one function. |
| CfgInvariant.BuildKeeps | ast/manipulation/common.go:142-144 | Every successful build of a well-nested statement restores all three stacks, keeps the cursor among the current function's blocks, adds only edges inside one function and keeps `After` and `Before` dual. |
| CfgInvariant.BuildProgramKeeps | ast/manipulation/program.go:13-47 | The same for whole programs, with nested functions and inline bodies. |
| CfgGrowth.BuildGrew | ast/manipulation/common.go:142-144 | A build adds edges only out of the block that was current and out of new blocks, and records there only the statement's own nodes. |
| CfgReach.ReachableIsClosed | ast/manipulation/cfg.go:115-125 | What is reachable from a block is closed under `After`. |
| CfgReach.AddEdgeStep | ast/manipulation/cfg.go:180-183 | While the graph is built, an edge from a reached block makes its target reached and no other block, leaves every other function's edges and blocks alone, and makes no node missed or found. |
| CfgReport.ReportMeaning | analysis/cfg.go:84-107 | A node is reported if and only if it labels a block without predecessors, other than the start, of some function. |
| CfgReaching.BuildWent | ast/manipulation/common.go:142-144 | Building any well-nested statement, constant conditions and dead code included, adds to the paths exactly what is read off its syntax: where they end, which jump targets they reach, the nodes recorded only off them, and their edges less their new blocks. |
| CfgRecords.BuildFiled | ast/manipulation/common.go:443-473 | It adds exactly the functions read off its syntax, in their order, each with its own node and complexity, which later steps leave alone. |
| CfgRecords.ProgramPaths | ast/manipulation/program.go:13-47 | The functions of a program's graph are exactly those read off its syntax, those of its declarations twice, each with its complexity; so are the nodes recorded in blocks that no path leads to. |
| CfgFollowed.FollowedExactlyTop | ast/manipulation/function_declaration.go:43-53 | Paths get to every recorded node of an executed statement if and only if the missed set and the executed set are disjoint. |
| CfgReport.RunsFollowEdges | ast/manipulation/common.go:443-473 | In every function of a program's graph the executed nodes are recorded only in blocks reachable from its start, if and only if the program passes a check of its syntax. |
| CfgReport.FollowedIsHonest | analysis/cfg.go:84-107 | Where runs follow the edges the report is right, since it names only blocks off every path. |
| CfgTelling.BuildTold | ast/manipulation/common.go:142-144 | Building a well-nested statement adds to the report exactly the nodes read off its syntax, and leaves the way to the next statement exactly as its syntax says. |
| CfgTelling.ProgramTold | ast/manipulation/program.go:13-47 | The blocks of a program's graph that nothing leads to are labelled with exactly the nodes read off its expanded syntax. |
| CfgReport.ProgramReport | analysis/cfg.go:84-107 | A node is in a program's report if and only if it is in a set computed from the program alone, without its graph. |
| CfgBranches.BranchReportedExactly | ast/manipulation/if_statement.go:63-75 | For every if and while of a program, standing at any depth, its consequence, else or body is in the report if and only if the condition is made of those literals that skip it. |
| CfgBranches.BranchEntered | ast/manipulation/while_statement.go:32-38 | Otherwise the graph has an edge from the condition's block to the branch's. |
| CfgBranches.BehindJumpIsReported | ast/manipulation/break.go:25-32 | A recorded statement right behind a `return`, `break` or `continue` is in the report, at any depth. |
| CfgCode.BuildRecords | ast/manipulation/cfg.go:58-66 | Building a statement adds exactly the instructions read off its syntax, each as often as it stands there, in whatever blocks. |
| CfgCode.ProgramCode | ast/manipulation/program.go:13-47 | The instructions of a program's graph are exactly those of its expanded syntax. |
| CfgWalks.ProgramWalked | ast/manipulation/program.go:13-47 | Every run of a program, however long, is a path of its graph: the nodes it executes stand on a path of blocks from the start, in the order in which they are executed, to the end if it ends; where else bodies do not jump and what is built in place without being run lets paths through. |
| CfgWalks.FunctionsWalked | ast/manipulation/common.go:443-473 | So is every run of every function that is built, at any depth, from its own start to its own end. |
| CfgRuns.RunsExactly | ast/manipulation/binary_expression.go:123-137 | A node is executed by some run of a list if and only if it is a declaration of it, or a path of conditions that can hold or fail leads to it: every such path is taken under some valuation. |
| CfgRuns.ExecutedExactly | ast/manipulation/common.go:443-473 | A node is never executed, by the program or by a function that it sets up, however deeply nested, if and only if it is outside a set computed from the syntax. |
| CfgHonest.HonestExactlyTop | ast/manipulation/function_declaration.go:43-53 | The builder loses no statement that a run reaches and no declaration of a list that is entered, if and only if the reported set and the executed set are disjoint. |
| CfgHonest.TraceableProgramHonest | ast/manipulation/if_statement.go:92-104 | Programs whose breaks out of else bodies end only loops that can end by their condition, without inline function expressions, whose declarations stand where the way is not lost and have bodies that do not lose it, are honest. |
| CfgReport.UnreachableIsNeverExecuted | analysis/cfg.go:78-110 | The report is right, that is, no reported node is executed by any run of the program or of a function that is set up, if and only if the program is honest. |
| CfgReport.TraceableIsNeverExecuted | analysis/cfg.go:78-110 | In particular the report of every such program is right. |
| CfgComplexity.ComplexityExactly | ast/manipulation/cfg.go:140-202 | The program and every function built in it, however deeply nested, are in the graph, and every one of their records has the complexity read off their syntax: edges minus nodes plus two over the blocks reachable from its start. |
| CfgComplexity.ComplexityIsDecisionsPlusOne | ast/manipulation/cfg.go:140-202 | Without constant conditions and code behind a `break` or `continue`, the complexity of every record is one more than the decisions shown; for the program these include the ones in its declarations' inline bodies. |
| CfgComplexity.SeenExactly | ast/manipulation/common.go:328-330 | The decisions shown are all of a statement's if, while and for-in statements if and only if none stands in an else body or behind a jump. |
| CfgComplexity.ComplexityIsMcCabe | ast/manipulation/cfg.go:140-202 | Where nothing is hidden, every record of a function has McCabe's count, and a program's is McCabe's count plus the decisions of its declarations. |
| CfgSearch.GetDownwardNodes | ast/manipulation/cfg.go:115-125 | On any block graph, cycles included, the search ends and marks only blocks reachable from its start, with all their successors. |
| CfgSearch.SumDownwardEdges | ast/manipulation/cfg.go:100-113 | The search ends and returns the sum of out-degrees over exactly the blocks it newly marks, each counted once. |
| CfgSearch.CountDownwardEdges | ast/manipulation/cfg.go:144-148 | The sum of out-degrees over exactly the blocks reachable from the start. |
| CfgSearch.CountDownwardNodes | ast/manipulation/cfg.go:150-155 | The number of blocks reachable from the start. |
| CfgSearch.CalculateCyclomaticComplexity | ast/manipulation/cfg.go:140-142 | Edges minus nodes plus two over exactly the reachable blocks. |
| CfgSearch.AnalyseBlocks | analysis/cfg.go:84-106 | One function's notes are the nodes of its blocks without predecessors, in order. |
| CfgSearch.AnalyseCfg | analysis/cfg.go:78-110 | All notes of a graph, function by function, with or without complexity. |
| CfgSearch.AnalysesMeaning | analysis/cfg.go:112-140 | Exactly the reported nodes are called unreachable, and exactly the functions above ten are called too complex, as moderate up to twenty, high up to fifty, and very high beyond. |
| CfgSearch.AnalyseProgram | analysis/cfg.go:18-28 | From a program's tree to its report: the notes are those of its graph; nothing they call unreachable is executed if and only if the program is honest; and too complex is exactly what exceeds ten by its syntax. |
| CfgSearch.UnreachableNoteIsSound | analysis/cfg.go:84-107 | Nodes with an unreachable note are executed by no run of the program nor of a function that is set up, if and only if the program is honest. |
| CfgSearch.ComplexityNotes | analysis/cfg.go:112-140 | The notes about complexity are exactly those of the functions whose complexity, read off the syntax, exceeds ten. |
| CfgLimits.BreakInElseIsLost | ast/manipulation/common.go:328-330 | A `break` in an else body that ends an endless loop is lost: the call behind the loop is reported, and runs. |
| CfgLimits.LoopWithoutExitIsLost | ast/manipulation/while_statement.go:15-56 | So it is for every loop with a constantly true condition that some run breaks out of, but only from else bodies, when a recorded statement follows. |
| CfgLimits.ReturningDeclarationIsLost | ast/manipulation/function_declaration.go:43-53 | A recorded statement behind any top-level declaration whose body returns, or loses the way otherwise, is reported, and runs. |
| CfgLimits.ReturningExpressionIsLost | ast/manipulation/unhandled.go:22-44 | The same behind a function expression or a generator, whose body is built inline but not run there. |
| CfgLimits.CallIsLost | ast/manipulation/program.go:30-39 | `function f() { return }` and a call: every other condition holds, and the call is reported wrongly. |
| CfgLimits.HoistedDeclarationIsLost | ast/manipulation/common.go:443-447 | A declaration behind a jump of the function it stands in, or wherever else the way is lost there, is reported, and is set up and runs; so is every node that is reported inside it and runs. |
| CfgLimits.TopDeclarationIsLost | analysis/cfg.go:85-104 | So is a top-level declaration behind a statement that loses the way. |
| CfgLimits.HelperIsLost | analysis/cfg.go:85-104 | `function outer() { return helper(); function helper() { g() } }` and a call: no declaration's body loses the way, the helper is reported wrongly, and its body runs. |
| CfgLimits.ProgramBuildsWhen | ast/manipulation/break.go:21-23 | A program gets a graph if and only if every condition looked at has a node and every jump looked at has a loop around it, even one outside its function. |
| Positions.GetLineOffsets | utils/position.go:104-131 | The offsets are those behind each line break, with CR LF as one break, and zero. |
| Positions.GetPositionForOffset | utils/position.go:44-73 | Line and column of an offset, with the code's answers for offsets before the first and behind the last line. |
| Positions.File.SetContent | parser/state_file.go:411-419 | The line offsets kept with a content are that content's. |
| Positions.File.GetOffsetForPosition | parser/state_file.go:261-280 | The offset of any position, clipped to its line as the code clips it. |
| Positions.OffsetRoundTrips | parser/state_file.go:261-280 | In a text that ends in a line break every offset survives the way to a position and back. |
| Positions.RoundTripsExactlyWhen | utils/position.go:44-73 | All offsets of a text survive if and only if the text is empty or ends in a line break. |
| Positions.LocatesExactlyWhen | utils/position.go:58-70 | The line of the position is the one whose range of bytes holds the offset, and its start plus the column is the offset, if and only if another line follows, or the offset is the end of a text that ends in a line break, or the text is one line. |
| Positions.PositionIsExact | utils/position.go:44-73 | In a text that ends in a line break, every offset is located by its position. |
| Positions.LocatedOnce | utils/position.go:58-70 | At most one position locates an offset. |
| Positions.ColumnsAreClipped | parser/state_file.go:261-280 | A column behind its line and break means the start of the next line; one so large that the sum wraps means the start of its own. |
| Positions.LastColumnsAreClipped | parser/state_file.go:261-280 | In the last line the bound is the number of lines; a line that is not there means the end of the text. |
| Positions.FirstLine | utils/position.go:104-131 | Lines begin behind LF, CR and CR LF, and nowhere else: the starts of a text are its own, the one behind its first break, and those of the rest. |
| Positions.OnlyLine | utils/position.go:104-131 | A text without a break is one line. |
| TextDiff.BuildLspTextEdits | ast/manipulation/core.go:40-90 | The loops find the common prefix and the common suffix, and the edit, no edit or bad slice that follow from them. |
| TextDiff.FindEditStart | ast/manipulation/core.go:49-59 | The scan stops at the last byte of the common prefix. |
| TextDiff.FindEditEnds | ast/manipulation/core.go:61-74 | The scan stops before the common suffix of what lies behind the start, never behind the last byte. |
| TextDiff.OffsetsRestore | ast/manipulation/core.go:61-74 | Between non-empty texts the edit's offsets are in range, and replacing that range gives the new text if and only if both texts end in the same byte. |
| TextDiff.EditRestoresExactlyWhen | ast/manipulation/core.go:76-90 | A client that resolves the edit's positions gets exactly the new text if and only if both texts are empty or end in the same byte; the slice fails exactly when a non-empty text becomes empty. |
| TextDiff.EditIsTight | ast/manipulation/core.go:49-74 | The edit starts at the last byte in which the texts agree from their start, and no edit that ends earlier leaves the same end. |
| Edits.UnparseRead | ast/manipulation/common.go:262-266 | A laid-out tree prints as the bytes of its span. |
| Edits.FlipReplaces | ast/manipulation/binary_expression.go:248-271 | Editing an operator in place replaces its bytes, moves what lies behind, and leaves what lies before by at least one byte. |
| Edits.InvertRefines | ast/manipulation/binary_expression.go:139-151 | With a gap before every operator, the edits of `invert` leave the tree laid out in the document, read as the rewritten tree, and every other node where it belongs. |
| Edits.InvertText | ast/manipulation/binary_expression.go:139-151 | With or without gaps, the document is the old one with the node's span replaced by the print of the rewritten tree. |
| Edits.DeMorganText | ast/manipulation/binary_expression.go:39-42 | `deMorgans` replaces the node's span by that print in `!(` and `)`. |
| Edits.InvertTwice | ast/manipulation/binary_expression.go:248-271 | Inverting twice gives the expression back if and only if no inverted operator is `>` or `<=`. |
| Edits.GapExactlyWhen | ast/manipulation/core.go:96-107 | An edit that changes an operator's length leaves its left operand's end alone if and only if there is a gap between them. |
| EditMeaning.FlippedComparison | ast/manipulation/binary_expression.go:248-271 | A flipped comparison holds if and only if the original does not, except for a `<=` between equal sides. |
| EditMeaning.FlippedConnective | ast/manipulation/binary_expression.go:248-271 | A flipped `&&` or `||` of negated operands is the negation of the original. |
| EditMeaning.InvertedNegates | ast/manipulation/binary_expression.go:139-151 | An inverted condition, at any depth, is the negation of the original with the operands of its connectives negated. |
| EditMeaning.DeMorganMeaning | ast/manipulation/binary_expression.go:39-42 | `deMorgans` keeps the meaning of a condition whose connectives join only comparisons, and otherwise negates the other operands. |
| EditMeaning.ComparisonInverted | ast/manipulation/binary_expression.go:139-151 | Inverting a comparison negates it if and only if it is no `<=` or its sides differ. |
| EditSession.ProgramContent.BeginEditSession | ast/manipulation/core.go:117-136 | Every node gets a staged copy of its element; the elements themselves stay. |
| EditSession.ProgramContent.DropEditSession | ast/manipulation/core.go:161-181 | The text of before the session is back, no node is staged, and no node has moved. |
| EditSession.ProgramContent.EditTree | ast/manipulation/core.go:188-193 | Every staged element is shifted once, whichever node it belongs to. |
| EditSession.ProgramContent.EditText | ast/manipulation/common.go:167-183 | Text, snapshot and all staged offsets change together. |
| EditSession.ProgramContent.InvertOperator | ast/manipulation/binary_expression.go:248-271 | Only the operator's bytes change, to the table's opposite. |
| EditSession.ProgramContent.InvertNode | ast/manipulation/binary_expression.go:139-151 | The recursive edits over mutable elements make the document that the rewriting theorems are about. |
| EditSession.ProgramContent.DeMorgans | ast/manipulation/binary_expression.go:39-42 | The same for `deMorgans`. |
| EditSession.ProgramContent.ApplyAction | ast/manipulation/common.go:113-129 | An action answers with the difference it makes and leaves text and nodes as they were; inside a session it is refused. |
| EditSession.ActionReachesClient | ast/manipulation/common.go:113-129 | The client's document after an action is the old one with the node's span replaced by the printed rewriting. |
| TcbMap.RenderLength | parser/tcb/statements.go:243-250 | The rendered text is as long as the parts' texts together. |
| TcbMap.AddStatementShape | parser/tcb/statements.go:48-66 | Copying a statement appends one copy of each part in order, with equal text, span and template offsets, and keeps starts exact. |
| TcbMap.TsToPug | parser/tcb/statements.go:181-189 | The first part whose recorded range holds the offset, and nothing exactly when none does. |
| TcbMap.FaithfulExactlyWhen | parser/tcb/statements.go:181-189 | In an exact statement every offset is traced to the part whose text covers it if and only if no part that is longer than its text is followed by text. |
| TcbScopes.StepSound | parser/tcb/scope.go:24-46 | Appending, opening, closing and inserting keep the scope tree sound; only closing the root fails. |
| TcbScopes.SpliceSound | parser/tcb/statements.go:68-107 | A splice keeps every scope sound, although it leaves the builder's length stale. |
| TcbScopes.FlattenKeepsText | parser/tcb/scope.go:84-98 | Flattening keeps the text of the scopes, inner scopes in their place. |
| TcbScopes.BlockIsExact | parser/tcb/tcb.go:303-314 | Whatever built the scopes, in the final block each part starts where the texts before it end, the text is that of the scopes, and lookups are right if and only if no overlong part is followed by text. |
| TcbScopes.GeneratesInside | parser/tcb/tcb.go:264-268 | While the outer function stays open, no sequence of writes, scopes and splices makes a part longer than its text, as long as nothing is spliced in directly behind a scope that is still open. |
| TcbScopes.TemplateIsFaithful | parser/tcb/tcb.go:316-320 | A block generated in one outermost function, by any such sequence, traces every offset to the right part, appends to the root in between included. |
| TcbScopes.TextAfterFunction | parser/tcb/statements.go:229-233 | Text after that function spoils the map unless the root ends with the function's scope or held no other text: an if and only if. |
| TcbText.StepPlays | parser/tcb/tcb.go:84-94 | What each step does to the texts: a write goes to the end of the open scope, or of the root, a new scope to the end of the open one, closing adds a brace to the scope that is left, an insertion stands right behind its part; all else stays, and a step fails where there is nothing to close. |
| TcbText.RunText | parser/tcb/tcb.go:303-314 | After any run at all the block's text is the imports, the directives, the pipes and the tree of texts, in this order. |
| TcbText.ScriptWritten | parser/tcb/scope.go:24-46 | A nested piece of a program is written as its own text at the end of the open scope, and nothing else is touched. |
| TcbBuilder.Statement.AddStatement | parser/tcb/statements.go:48-66 | The object's parts and length are those of the copied statement. |
| TcbBuilder.Statement.AddStatementAfterPart | parser/tcb/statements.go:68-107 | The parts are spliced in behind the part and the later ones moved; nothing changes exactly when the part is not there. |
| TcbBuilder.Statement.TsToPugLocation | parser/tcb/statements.go:181-189 | The lookup loop finds the first part that holds the offset. |
| TcbBuilder.Tcb.BeginScope | parser/tcb/tcb.go:138-146 | A new scope opens in the current one, over its own object. |
| TcbBuilder.Tcb.EndScope | parser/tcb/tcb.go:264-268 | The brace is written, the parent is current again and its last part closed; on the root scope it fails. |
| TcbBuilder.Tcb.AddStatementAfterPart | parser/tcb/tcb.go:96-132 | The stack-driven search ends; it inserts in one inner scope that has the part, and gives up only if none has it. |
| TcbBuilder.Tcb.ToStatement | parser/tcb/scope.go:84-98 | Flattening the objects leaves them unchanged and yields the flattened statement. |
| TcbBuilder.Tcb.ToString | parser/tcb/tcb.go:303-314 | The final block is the one the exactness theorem is about. |
| TcbShift.OffsetByOffset | parser/tcb/statements.go:115-126 | A span shared by several parts is moved once for each of them. |
| TcbShift.TracedCopies | parser/tcb/statements.go:48-66 | Copies read as their originals and share their template offsets, in order. |
| TcbShift.VisitAmount | parser/tcb/tcb_expression.go:71-106 | The visitors write the expression's code, and one real part for each of its own nodes, in order and reading what the node is written as, with array elements moved by the array's start. |
| TcbShift.Translate | parser/tcb/tcb_expression.go:380-444 | However deeply statements are copied into each other, the result has that code, its real parts read and come from what they should, and no two share a span. |
| TcbShift.OffsetByNodeStart | parser/tcb/statements.go:109-126 | All places move by the base exactly once. |
| TcbShift.ValueExpression | parser/tcb/attribute.go:494-503 | An attribute value is translated and then moved: each place is the visitor's place plus the base. |
| TcbShift.ShiftedOnceExactlyWhen | parser/tcb/tcb_expression.go:208-228 | Every place is its node's span plus the base if and only if no array away from the start has elements with places. |
| TcbTypes.CodeIsPrinted | parser/tcb/tcb_expression.go:71-106 | The text that is written is the print of a TypeScript expression. |
| TcbTypes.CheckedAsMeant | parser/tcb/tcb_expression.go:380-444 | It is one whose parts all have a text if and only if no function is called through `!.` and no template string is empty; then, however checking works, it says what checking the template's own expression says: `?.` reads through a value that is there, or is undefined, `!.` through one that is there, and `$any` takes any type. |
| MicroExpression.ParseAhead | parser/structural_directive/expression_parser.go:31-68 | What the look-ahead past blanks and an operator decides, reads out of range included. |
| MicroExpression.ParseExpression | parser/structural_directive/expression_parser.go:7-89 | The loop with its bracket stack ends where the specification of the scan says. |
| MicroExpression.BracketDiscipline | parser/structural_directive/expression_parser.go:73-85 | Whenever the scan ends before the text does, the brackets of the slice are all closed, and what look-ahead skips never changes them. |
| MicroExpression.QuoteStays | parser/structural_directive/expression_parser.go:108-123 | A quote on the stack is never popped: the scan runs to the end. |
| MicroExpression.QuoteRunsToEnd | parser/structural_directive/expression_parser.go:91-106 | An expression that takes in a quote takes in everything behind it. |
| MicroGrammar.PhraseEndsExactly | parser/structural_directive/expression_parser.go:31-68 | Where the scan of an ordinary expression ends, by what comes behind it: any character that cannot go on, a name behind a blank, the end of the text. |
| MicroGrammar.OperatorJoins | parser/structural_directive/expression_parser.go:125-165 | Two names and any of the fifteen operator characters between them, with blanks or without, are scanned to the end of the second, except for a `$` behind a blank. |
| MicroGrammar.PhraseIsComplete | parser/structural_directive/expression_parser.go:7-89 | Names, brackets around anything closed, infix chains and calls are read to their end wherever they stand. |
| MicroGrammar.SignsDecide | parser/structural_directive/parser.go:410-443 | One or two signs begin an expression, a third is an error, and the end behind them a bad read. |
| MicroGrammar.IdentifierExactly | parser/structural_directive/parser.go:486-516 | An identifier is the longest run of letters, digits, `_` and `$` (or `-` in HTML) that begins with no digit. |
| Microsyntax.ExpectAndTakeIdentifier | parser/structural_directive/parser.go:486-516 | The longest identifier from the index, or the error for what is there instead. |
| Microsyntax.ConsumeOptionalUnaryOperator | parser/structural_directive/parser.go:410-443 | The run of unary operators, an error beyond two, and the bad read at the end of the text. |
| Microsyntax.LexBase | parser/structural_directive/parser.go:136-201 | Which state the base state chooses; it consumes blanks only. |
| Microsyntax.ParseShorthand | parser/structural_directive/parser.go:120-398 | The loop ends on every input, by remaining runes, then whether a statement has been added, then whether the state is the base state, and agrees with the specification. |
| Microsyntax.ParseFaithful | parser/structural_directive/parser.go:202-393 | In every successful parse each recorded text is the input's slice at its offset, and all of them are disjoint and in input order. |
| MicroRoundTrip.CompleteScan | parser/structural_directive/expression_parser.go:7-89 | An expression that is read to its end alone is read to its end in any text where it stops. |
| MicroRoundTrip.RoundTrip | parser/structural_directive/parser.go:120-398 | Parsing the printed form of any list of statements, with `;` or `,` between them, with or without the colon of a key and the value of a `let`, gives exactly these statements, each text at the offset it was printed at. |
| MicroGrammar.ClausesRoundTrip | parser/structural_directive/parser.go:120-398 | The same for every list of statements of words and ordinary expressions, as a grammar has them that does not know the scanner. |
| Selectors.ParseSelector | ast/selectorParser.go:40-172 | The loop ends on every input and agrees with the state machine's specification, errors included. |
| Selectors.RoundTrip | ast/selectorParser.go:40-172 | Any selector of a tag, attributes, `:not(tag)` and `:not([attr])` parses from its printed form with the same four fields in order. |
| SelectorGrammar.ParsesExactly | ast/selectorParser.go:40-172 | The texts that parse are exactly the sequences of names, `[...]`, `:not`, parentheses and characters without a meaning, and parse to what these mean, a name at the very end being the tag even inside `:not(`; the read past the end is exactly a text that ends in the middle of `:not`; all else is an error. |
| Usages.Class.AppendDefinitionUsage | parser/state_class.go:65-77 | A usage of a known name is added and its access taken into account; other definitions stay. |
| Usages.Class.RemoveUsages | parser/state_class.go:723-743 | Exactly the usages of one class are gone from all definitions, and no access is lowered. |
| Usages.Class.RemoveUsagesFromClassUpwards | parser/state_class.go:721-747 | The same in every ancestor, however many paths lead to it, and nowhere else. |
| Usages.Class.PropagateUsagesUpwards | parser/state_class.go:704-714 | Every ancestor gets the usages once for each path that leads to it. |
| Usages.Class.Postprocess | parser/state_class.go:624-633 | Every ancestor's definitions are the old ones with this class's usages replaced; no other class changes. |
| Usages.PostprocessIdempotent | parser/state_class.go:624-633 | Doing it again changes nothing, order included. |
| Usages.PostprocessCommutes | parser/state_class.go:624-633 | Two classes can do it in either order: same usages as multisets, same access. |
| Usages.PostprocessCounts | parser/state_class.go:704-747 | Afterwards a usage of this class is there once per path, whatever was there before, and usages of other classes are untouched. |
| Usages.PostprocessAccess | parser/state_definition.go:265-270 | Afterwards a definition's access is the highest of what it was and of the new usages: template above local above constructor. |
| Usages.ChainHasOneWay | parser/state_class.go:704-714 | Where every class extends at most one, each ancestor has exactly one path, so each usage exactly once. |
| TagCodec.Scanner.Serialize | treesitter_parsers/angular_expr/scanner.c:31-72 | The buffer's first bytes are the stack's encoding, fewer than its size, and the bytes behind them are untouched. |
| TagCodec.StrNCpy | treesitter_parsers/angular_expr/scanner.c:57 | Bytes up to the first NUL, then zeros, and nothing outside. |
| TagCodec.Scanner.Deserialize | treesitter_parsers/angular_expr/scanner.c:74-118 | On any bytes, the tags they decode to, or failure exactly when a read would pass their end. |
| TagCodec.SerializedIsBounded | treesitter_parsers/angular_expr/scanner.c:41-68 | At most 1023 bytes for every stack, and the written tags are the longest prefix that leaves a byte free. |
| TagCodec.RoundTrip | treesitter_parsers/angular_expr/scanner.c:74-118 | Every saved stack is read back without passing its end: as many tags (up to 65535), the written prefix with names cut to 255 bytes, and new tags for the rest. |
| TagCodec.RestoredExactlyWhen | treesitter_parsers/angular_expr/scanner.c:43-67 | A stack comes back as it was if and only if it has at most 65535 tags, its written names are short and have nothing behind a NUL, and all unwritten tags are new. |
| TagCodec.LayoutIsExact | treesitter_parsers/angular_expr/scanner.c:31-72 | The encoding byte by byte: both counts, then for each written tag its type, and for a custom one the length of its name and the name up to its first NUL; as many tags as leave one byte of 1024 free. |
| TagCodec.RestoredTagByTag | treesitter_parsers/angular_expr/scanner.c:94-117 | What is restored tag by tag: types, names as saved, and end tags for the rest. |
| TagCodec.DecodesExactly | treesitter_parsers/angular_expr/scanner.c:74-118 | Any bytes decode to given tags if and only if no tags are counted and none are given, or the bytes of the written ones stand behind the counts and the others are new. |
| TagCodec.RestoringTwice | treesitter_parsers/angular_expr/scanner.c:31-118 | Saving and restoring a second time changes nothing more. |
| YamlScalar.ContinuePlain | treesitter_parsers/yaml/scanner.c:783-826 | The scan takes characters up to the first one that its guards on blanks, `#` and `:` refuse, or fails at a `:` that ends a key; every character taken has reached the automaton, in order, and on success the scalar has the tag of the schema. |
| YamlScalar.TakesPlainChars | treesitter_parsers/yaml/scanner.c:300-315 | The scan takes exactly the characters of production 130 of YAML 1.2.2, in blocks and flows, but no `#` behind a flow indicator in a flow. |
| YamlScalar.FoldDescribes | treesitter_parsers/yaml/schema.json.c:17-106 | Every word without blanks leads to a state that describes it exactly; the aborting state is never reached. |
| YamlScalar.FollowsSchema | treesitter_parsers/yaml/schema.json.c:17-106 | Every word gets the tag of the JSON schema: null, bool, int, float or, for all others, string. |
| YamlScalar.LineFollowsSchema | treesitter_parsers/yaml/schema.json.c:104-105 | A line gets its first word's tag if only blanks follow, and is a string otherwise. |

## Left out

- CfgComplexity.ComplexityIsDecisionsPlusOne: statements with a constant condition (pruned by the builder), and code behind a `break` or `continue` (a second jump there is linked to the first), where the count is that of `CfgComplexity.ComplexityExactly` and not one more than the decisions.
- CfgWalks.ProgramWalked: else bodies that jump, which build nothing, so that no path has the jump (`CfgLimits.BreakInElseIsLost`); nodes inside else bodies, and declarations, which are set up before they are recorded, are left out of the path.
- CfgWalks.FunctionsWalked: the same.
- TcbTypes.CheckedAsMeant: how TypeScript groups operators that the text writes side by side, as in an interpolated `a ? b : c`, and where it finds the ends of words and signs.
- TcbShift.ValueExpression: pipe sequences, whose parts come from another statement.
- Microsyntax.ExpectAndTakeIdentifier: letters and digits outside ASCII, which the source takes into identifiers.
- YamlScalar.ContinuePlain: one line of a scalar, behind its first character; scalars over several lines, and the document markers that freeze the automaton beforehand.
- TcbScopes.TemplateIsFaithful: nothing is inserted directly behind a scope that is still open, as no generator does; `TcbScopes.BlockIsExact` says what the lookups do after any run at all.
- MicroRoundTrip.RoundTrip: what is printed must be readable at all: expressions that the scan reads to their end alone and that do not end in an operator (`MicroGrammar.PhraseIsComplete` has a grammar of them), at most two unary operators in front, later statements that begin with an identifier, keys without `$` and `-`. Quotes are excluded by the code itself (`MicroExpression.QuoteRunsToEnd`).
- Positions.OffsetRoundTrips: texts of 2^64 bytes or more, where a column would wrap.
- Positions.RoundTripsExactlyWhen: the same bound.
- TextDiff.EditRestoresExactlyWhen: the old text is empty or ends in a line break, as positions need; without that, `TextDiff.OffsetsRestore` is the claim about offsets.
- Which functions that are set up are called: any of them may be, at any time.
- Statements without a graph of their own in the builder: switch, try, do, throw, classic for loops and labels, which the source builds as a list of their children or ignores. Nodes that it builds as such a list and that run in order, once, are blocks here.
- Class declarations and exports at the top of a program, which build nothing.
- Instruction texts and block labels, and the graph's printed form.
- The second build of a graph from the same tree, which appends the functions again.
- Template files whose notes have no place in the template; the analysis of the generated block is that of any program.
- Columns in UTF-16 units: columns are bytes here, as in the code.
- Committing a session, removing redundant terms, prepending text to a statement, import and method insertion.
- Variable lookup in scopes and the naming of temporaries; which statements a template element produces. Scopes are numbered in the order they are opened, and identifiers of parts are given out by the block.
- Empty parentheses in template expressions; comments in object literals; statements built at an attribute's offset.
- Letters and digits outside ASCII in selectors.
- Resolving the names in `extends` clauses: the classes a class extends are given and have no cycle. Usage instances have an access above "none". Angular metadata processed after usages is not modelled.
- The order in which a definition map is walked: any order gives the same result.
- Matching of tags by selectors, lists of selectors.
- The bytes' order in the saved counts: low byte first.
- The scanners around the codec and the automaton, and the tokens that are produced.
- Locks, the language server protocol, parsing to syntax trees, search, configuration and logging.
