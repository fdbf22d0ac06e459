/** The text of a type-check block, told without parts, offsets and builders: a tree of
    texts that every operation changes in one place. */
module TcbText {
  import opened Options
  import opened Texts
  import opened TcbMap
  import opened TcbScopes

  // ----- a tree of texts -----

  /** What stands in a scope: a piece of text, or another scope. */
  datatype Item = Said(id: nat, text: Text) | Inner(id: nat, scope: nat)

  datatype Sheet = Sheet(items: seq<Item>, parent: Option<nat>)

  /** Sheet 0 is the root; `current` is open; `next` is the next identifier. */
  datatype Tree = Tree(sheets: seq<Sheet>, current: nat, next: nat)

  const BLANK := Tree([Sheet([], None)], 0, 0)

  function Replaced(t: Tree, j: nat, items: seq<Item>): Tree
    requires j < |t.sheets|
  {
    t.(sheets := t.sheets[j := t.sheets[j].(items := items)])
  }

  function Appended(t: Tree, j: nat, more: seq<Item>): Tree
    requires j < |t.sheets|
  {
    Replaced(t, j, t.sheets[j].items + more)
  }

  /** New pieces with the texts of these parts. */
  function Copies(parts: seq<Part>, id: nat): seq<Item> {
    seq(|parts|, i requires 0 <= i < |parts| => Said(id + i, parts[i].text))
  }

  /** The parts' own pieces. */
  function Originals(parts: seq<Part>): seq<Item> {
    seq(|parts|, i requires 0 <= i < |parts| => Said(parts[i].id, parts[i].text))
  }

  /** How many items come before the one with this identifier. */
  function ItemsBefore(items: seq<Item>, id: nat): (k: nat)
    ensures k <= |items| && (k < |items| ==> items[k].id == id) && forall i :: 0 <= i < k ==> items[i].id != id
    decreases |items|
  {
    if items == [] || items[0].id == id then 0 else 1 + ItemsBefore(items[1..], id)
  }

  /** What an operation does to the texts.  A write goes to the end of the root when the
      root is meant, and otherwise to the end of the open scope; a new scope stands at the
      end of the open one; a brace ends the scope that is left; an insertion stands right
      behind the item it names. */
  function Play(t: Tree, op: Op): Option<Tree>
    requires 0 < |t.sheets| && t.current < |t.sheets|
  {
    match op
    case Write(root, text, _) =>
      Some(Appended(t, if root then 0 else t.current, [Said(t.next, text)]).(next := t.next + 1))
    case WriteStatement(root, parts) =>
      Some(Appended(t, if root then 0 else t.current, Copies(parts, t.next)).(next := t.next + |parts|))
    case Open(text, _) =>
      var n := |t.sheets|;
      var outer := Appended(t, t.current, [Inner(t.next, n)]);
      Some(Tree(outer.sheets + [Sheet([Said(t.next + 1, text)], Some(t.current))], n, t.next + 2))
    case Close =>
      var closed := Appended(t, t.current, [Said(t.next, "}\n")]);
      match t.sheets[t.current].parent {
        case None => None
        case Some(p) => Some(closed.(current := p, next := t.next + 1))
      }
    case Insert(k, parts, after) =>
      if 0 < k < |t.sheets| && ItemsBefore(t.sheets[k].items, after) < |t.sheets[k].items| then
        var items := t.sheets[k].items;
        var i := ItemsBefore(items, after) + 1;
        var new_ := if i == |items| then Copies(parts, t.next) else Originals(parts);
        Some(Replaced(t, k, items[..i] + new_ + items[i..]).(next := t.next + |parts|))
      else Some(t)
  }

  // ----- the tree of a state -----

  function ItemOf(p: Part): Item {
    if p.scope.Some? then Inner(p.id, p.scope.value) else Said(p.id, p.text)
  }

  function ItemsOf(parts: seq<Part>): (r: seq<Item>)
    ensures |r| == |parts| && forall i :: 0 <= i < |parts| ==> r[i] == ItemOf(parts[i])
  {
    seq(|parts|, i requires 0 <= i < |parts| => ItemOf(parts[i]))
  }

  function SheetOf(s: Scope): Sheet {
    Sheet(ItemsOf(s.built.parts), s.parent)
  }

  function TreeOf(st: State): (t: Tree)
    ensures |t.sheets| == |st.scopes| && forall j :: 0 <= j < |st.scopes| ==> t.sheets[j] == SheetOf(st.scopes[j])
  {
    Tree(seq(|st.scopes|, j requires 0 <= j < |st.scopes| => SheetOf(st.scopes[j])), st.current, st.next)
  }

  // ----- every step does that -----

  lemma SheetReplaced(st: State, j: nat, b: Built, used: nat)
    requires j < |st.scopes|
    ensures TreeOf(SetBuilt(st, j, b, used)) ==
            Replaced(TreeOf(st), j, ItemsOf(b.parts)).(next := st.next + used)
  {
    var r := SetBuilt(st, j, b, used);
    assert TreeOf(r).sheets == Replaced(TreeOf(st), j, ItemsOf(b.parts)).sheets;
  }

  lemma StatementItems(b: Built, parts: seq<Part>, id: nat)
    requires AllTimed(parts)
    ensures ItemsOf(AddStatement(b, parts, id).parts) == ItemsOf(b.parts) + Copies(parts, id)
    decreases |parts|
  {
    if parts != [] {
      var front := parts[..|parts| - 1];
      StatementItems(b, front, id);
      assert Copies(parts, id) == Copies(front, id) + [Said(id + |front|, parts[|front|].text)];
    }
  }

  lemma SameIndex(parts: seq<Part>, id: nat)
    ensures ItemsBefore(ItemsOf(parts), id) == IndexOf(parts, id)
  {
    var i, k := ItemsBefore(ItemsOf(parts), id), IndexOf(parts, id);
    assert i < |parts| ==> ItemOf(parts[i]).id == id;
    assert k < |parts| ==> ItemsOf(parts)[k].id == id;
  }

  lemma SpliceItems(b: Built, parts: seq<Part>, after: nat, id: nat)
    requires Copyable(parts) && IndexOf(b.parts, after) < |b.parts|
    ensures var items := ItemsOf(b.parts);
            var i := ItemsBefore(items, after) + 1;
      ItemsOf(Splice(b, parts, after, id).parts) ==
        items[..i] + (if i == |items| then Copies(parts, id) else Originals(parts)) + items[i..]
  {
    hide AddStatement, IndexOf, ItemsBefore, ItemsOf, ShiftAll;
    SameIndex(b.parts, after);
    var i := IndexOf(b.parts, after) + 1;
    ItemsCount(b.parts);
    if i == |b.parts| {
      StatementItems(b, parts, id);
      assert ItemsOf(b.parts)[..i] == ItemsOf(b.parts) && ItemsOf(b.parts)[i..] == [];
    } else {
      SplicedItems(b.parts, i, parts, TotalSpan(parts));
    }
  }

  lemma ItemsCount(parts: seq<Part>)
    ensures |ItemsOf(parts)| == |parts|
  {
  }

  lemma SplicedItems(parts: seq<Part>, i: nat, more: seq<Part>, by_: nat)
    requires i <= |parts| && Copyable(more)
    ensures ItemsOf(parts[..i] + more + ShiftAll(parts[i..], by_)) ==
            ItemsOf(parts)[..i] + Originals(more) + ItemsOf(parts)[i..]
  {
    assert ItemsOf(ShiftAll(parts[i..], by_)) == ItemsOf(parts)[i..];
    assert ItemsOf(more) == Originals(more);
  }

  lemma OpenPlays(st: State, text: Text, pug: PugSpan?)
    requires Sound(st)
    ensures Play(TreeOf(st), Open(text, pug)) == Some(TreeOf(Step(st, Open(text, pug)).value))
  {
    hide Sound;
    TargetExists(st, false);
    var r := Step(st, Open(text, pug)).value;
    var p := Play(TreeOf(st), Open(text, pug)).value;
    var parts := st.scopes[st.current].built.parts;
    assert ItemsOf(r.scopes[st.current].built.parts) == ItemsOf(parts) + [Inner(st.next, |st.scopes|)];
    assert ItemsOf(r.scopes[|st.scopes|].built.parts) == [Said(st.next + 1, text)];
    SameSheets(TreeOf(r).sheets, p.sheets);
  }

  lemma SameSheets(a: seq<Sheet>, b: seq<Sheet>)
    requires |a| == |b| && forall j :: 0 <= j < |a| ==> a[j] == b[j]
    ensures a == b
  {
  }

  lemma ClosePlays(st: State)
    requires Sound(st)
    ensures Play(TreeOf(st), Close) ==
            match Step(st, Close) { case None => None case Some(r) => Some(TreeOf(r)) }
  {
    hide Sound;
    TargetExists(st, false);
    BracedSound(st);
    SoundScope(st, st.current);
    var s := Braced(st);
    SheetReplaced(st, st.current, s.scopes[st.current].built, 1);
    assert ItemsOf(s.scopes[st.current].built.parts) ==
           ItemsOf(st.scopes[st.current].built.parts) + [Said(st.next, "}\n")];
    if Step(st, Close).Some? {
      LeavePlays(s);
    } else {
      RootHasNoParent(st);
    }
  }

  lemma RootHasNoParent(st: State)
    requires Sound(st)
    ensures st.scopes[0].parent == None
  {
  }

  /** Closing the scope's part changes no text. */
  lemma LeavePlays(s: State)
    requires s.current < |s.scopes| && Leave(s).Some?
    ensures var r := Leave(s).value;
      && s.scopes[s.current].parent == Some(r.current) && TreeOf(r) == TreeOf(s).(current := r.current)
  {
    var r := Leave(s).value;
    var p := s.scopes[s.current].parent.value;
    assert ItemsOf(r.scopes[p].built.parts) == ItemsOf(s.scopes[p].built.parts);
    SameSheets(TreeOf(r).sheets, TreeOf(s).sheets);
  }

  /** Every step of the generator changes the texts as Play says, and fails where Play
      fails. */
  lemma StepPlays(st: State, op: Op)
    requires Sound(st) && (op.WriteStatement? || op.Insert? ==> Copyable(op.parts))
    ensures st.current < |st.scopes|
    ensures Play(TreeOf(st), op) == match Step(st, op) { case None => None case Some(r) => Some(TreeOf(r)) }
  {
    hide Sound, AddStatement, Splice;
    TargetExists(st, true);
    TargetExists(st, false);
    match op
    case Write(root, text, pug) =>
      var j := Target(st, root);
      var b := AddText(st.scopes[j].built, st.next, text, pug);
      assert ItemsOf(b.parts) == ItemsOf(st.scopes[j].built.parts) + [Said(st.next, text)];
      SheetReplaced(st, j, b, 1);
    case WriteStatement(root, parts) =>
      var j := Target(st, root);
      StatementItems(st.scopes[j].built, parts, st.next);
      SheetReplaced(st, j, AddStatement(st.scopes[j].built, parts, st.next), |parts|);
    case Open(text, pug) => OpenPlays(st, text, pug);
    case Close => ClosePlays(st);
    case Insert(k, parts, after) =>
      if k < |st.scopes| {
        SameIndex(st.scopes[k].built.parts, after);
      }
      if 0 < k < |st.scopes| && IndexOf(st.scopes[k].built.parts, after) < |st.scopes[k].built.parts| {
        SpliceItems(st.scopes[k].built, parts, after, st.next);
        SheetReplaced(st, k, Splice(st.scopes[k].built, parts, after, st.next), |parts|);
      }
  }

  // ----- the text of a tree -----

  /** Inner scopes come later than the ones they stand in. */
  predicate Orderly(t: Tree) {
    && t.current < |t.sheets|
    && (forall j {:trigger t.sheets[j]} :: 0 <= j < |t.sheets| ==>
          && (t.sheets[j].parent.Some? ==> t.sheets[j].parent.value < j)
          && ItemsOrderly(t.sheets[j].items, j, |t.sheets|))
  }

  predicate ItemsOrderly(items: seq<Item>, j: nat, n: nat) {
    forall i {:trigger items[i]} :: 0 <= i < |items| && items[i].Inner? ==> j < items[i].scope < n
  }

  /** The text of the first `n` items of a sheet, inner scopes in their places. */
  function SheetText(t: Tree, j: nat, n: nat): Text
    requires Orderly(t) && j < |t.sheets| && n <= |t.sheets[j].items|
    decreases |t.sheets| - j, n
  {
    if n == 0 then ""
    else
      assert ItemsOrderly(t.sheets[j].items, j, |t.sheets|);
      var item := t.sheets[j].items[n - 1];
      SheetText(t, j, n - 1) +
      if item.Said? then item.text else SheetText(t, item.scope, |t.sheets[item.scope].items|)
  }

  function TextOf(t: Tree, j: nat): Text
    requires Orderly(t) && j < |t.sheets|
  {
    SheetText(t, j, |t.sheets[j].items|)
  }

  lemma TreeIsOrderly(st: State)
    requires Sound(st)
    ensures Orderly(TreeOf(st))
  {
    forall j | 0 <= j < |st.scopes|
      ensures TreeOf(st).sheets[j].parent.Some? ==> TreeOf(st).sheets[j].parent.value < j
      ensures ItemsOrderly(TreeOf(st).sheets[j].items, j, |st.scopes|)
    {
      assert ScopeSound(st, j);
      forall i | 0 <= i < |st.scopes[j].built.parts|
        ensures var item := TreeOf(st).sheets[j].items[i]; item.Inner? ==> j < item.scope < |st.scopes|
      {
        assert PartSound(st, j, st.scopes[j].built.parts[i]);
      }
    }
  }

  lemma ScopeTextStep(st: State, j: nat, n: nat)
    requires Sound(st) && j < |st.scopes| && 0 < n <= |st.scopes[j].built.parts|
    ensures var p := st.scopes[j].built.parts[n - 1];
      if p.scope.Some? then
        && j < p.scope.value < |st.scopes|
        && ScopeText(st, j, n) == ScopeText(st, j, n - 1)
             + ScopeText(st, p.scope.value, |st.scopes[p.scope.value].built.parts|)
      else ScopeText(st, j, n) == ScopeText(st, j, n - 1) + p.text
  {
    hide Sound;
    SoundScope(st, j);
    assert PartSound(st, j, st.scopes[j].built.parts[n - 1]);
  }

  lemma SheetTextStep(t: Tree, j: nat, n: nat)
    requires Orderly(t) && j < |t.sheets| && 0 < n <= |t.sheets[j].items|
    ensures var item := t.sheets[j].items[n - 1];
      if item.Inner? then
        j < item.scope < |t.sheets| && SheetText(t, j, n) == SheetText(t, j, n - 1) + TextOf(t, item.scope)
      else SheetText(t, j, n) == SheetText(t, j, n - 1) + item.text
  {
    assert ItemsOrderly(t.sheets[j].items, j, |t.sheets|);
  }

  lemma {:induction false} ScopeTextIs(st: State, j: nat, n: nat)
    requires Sound(st) && Orderly(TreeOf(st)) && j < |st.scopes| && n <= |st.scopes[j].built.parts|
    ensures ScopeText(st, j, n) == SheetText(TreeOf(st), j, n)
    decreases |st.scopes| - j, n
  {
    if n > 0 {
      hide Sound, Orderly, ScopeText, SheetText;
      ScopeTextStep(st, j, n);
      SheetTextStep(TreeOf(st), j, n);
      var p := st.scopes[j].built.parts[n - 1];
      ScopeTextIs(st, j, n - 1);
      if p.scope.Some? {
        ScopeTextIs(st, p.scope.value, |st.scopes[p.scope.value].built.parts|);
      }
    }
  }

  lemma SheetOrderly(t: Tree, j: nat)
    requires Orderly(t) && j < |t.sheets|
    ensures ItemsOrderly(t.sheets[j].items, j, |t.sheets|)
    ensures t.sheets[j].parent.Some? ==> t.sheets[j].parent.value < j
  {
  }

  lemma ReplacedOrderly(t: Tree, j: nat, items: seq<Item>)
    requires Orderly(t) && j < |t.sheets| && ItemsOrderly(items, j, |t.sheets|)
    ensures Orderly(Replaced(t, j, items))
  {
    var r := Replaced(t, j, items);
    forall k | 0 <= k < |r.sheets|
      ensures r.sheets[k].parent.Some? ==> r.sheets[k].parent.value < k
      ensures ItemsOrderly(r.sheets[k].items, k, |r.sheets|)
    {
      SheetOrderly(t, k);
    }
  }

  lemma OpenOrderly(t: Tree, text: Text, pug: PugSpan?)
    requires Orderly(t)
    ensures Play(t, Open(text, pug)).Some? && Orderly(Play(t, Open(text, pug)).value)
  {
    var r := Play(t, Open(text, pug)).value;
    forall k | 0 <= k < |r.sheets|
      ensures r.sheets[k].parent.Some? ==> r.sheets[k].parent.value < k
      ensures ItemsOrderly(r.sheets[k].items, k, |r.sheets|)
    {
      if k < |t.sheets| {
        SheetOrderly(t, k);
      }
    }
  }

  lemma PlayOrderly(t: Tree, op: Op)
    requires Orderly(t)
    ensures Play(t, op).Some? ==> Orderly(Play(t, op).value)
  {
    hide Orderly;
    TreeHasRoot(t);
    match op
    case Write(root, _, _) =>
      var j := if root then 0 else t.current;
      SheetOrderly(t, j);
      ReplacedOrderly(t, j, Play(t, op).value.sheets[j].items);
      Renumbered(Replaced(t, j, Play(t, op).value.sheets[j].items), Play(t, op).value);
    case WriteStatement(root, parts) =>
      var j := if root then 0 else t.current;
      SheetOrderly(t, j);
      ReplacedOrderly(t, j, Play(t, op).value.sheets[j].items);
      Renumbered(Replaced(t, j, Play(t, op).value.sheets[j].items), Play(t, op).value);
    case Open(text, pug) => OpenOrderly(t, text, pug);
    case Close =>
      SheetOrderly(t, t.current);
      if Play(t, op).Some? {
        ReplacedOrderly(t, t.current, Play(t, op).value.sheets[t.current].items);
        Renumbered(Replaced(t, t.current, Play(t, op).value.sheets[t.current].items), Play(t, op).value);
      }
    case Insert(k, parts, after) =>
      if Play(t, op) != Some(t) {
        SheetOrderly(t, k);
        ReplacedOrderly(t, k, Play(t, op).value.sheets[k].items);
        Renumbered(Replaced(t, k, Play(t, op).value.sheets[k].items), Play(t, op).value);
      }
  }

  lemma TreeHasRoot(t: Tree)
    requires Orderly(t)
    ensures t.current < |t.sheets|
  {
  }

  lemma Renumbered(t: Tree, r: Tree)
    requires Orderly(t) && r.sheets == t.sheets && r.current < |r.sheets|
    ensures Orderly(r)
  {
    forall k | 0 <= k < |r.sheets|
      ensures r.sheets[k].parent.Some? ==> r.sheets[k].parent.value < k
      ensures ItemsOrderly(r.sheets[k].items, k, |r.sheets|)
    {
      SheetOrderly(t, k);
    }
  }

  // ----- runs -----

  predicate CanRun(ops: seq<Op>) {
    forall op <- ops :: op.WriteStatement? || op.Insert? ==> Copyable(op.parts)
  }

  function RunAll(st: State, ops: seq<Op>): Option<State>
    requires Sound(st) && CanRun(ops)
    decreases |ops|
  {
    if ops == [] then Some(st)
    else
      assert ops[0] in ops;
      StepSound(st, ops[0]);
      match Step(st, ops[0])
      case None => None
      case Some(s) => RunAll(s, ops[1..])
  }

  function PlayAll(t: Tree, ops: seq<Op>): (r: Option<Tree>)
    requires Orderly(t)
    ensures r.Some? ==> Orderly(r.value)
    decreases |ops|
  {
    if ops == [] then Some(t)
    else
      PlayOrderly(t, ops[0]);
      match Play(t, ops[0])
      case None => None
      case Some(s) => PlayAll(s, ops[1..])
  }

  /** So does every run. */
  lemma {:induction false} RunPlays(st: State, ops: seq<Op>)
    requires Sound(st) && CanRun(ops)
    ensures Orderly(TreeOf(st))
    ensures PlayAll(TreeOf(st), ops) == match RunAll(st, ops) { case None => None case Some(r) => Some(TreeOf(r)) }
    ensures RunAll(st, ops).Some? ==> Sound(RunAll(st, ops).value)
    decreases |ops|
  {
    hide Sound, Orderly, Step, Play;
    TreeIsOrderly(st);
    if ops != [] {
      assert ops[0] in ops;
      StepSound(st, ops[0]);
      StepPlays(st, ops[0]);
      if Step(st, ops[0]).Some? {
        RunPlays(Step(st, ops[0]).value, ops[1..]);
      }
    }
  }

  lemma HeadText(imports: Text, directives: seq<Part>, pipes: seq<Part>, id: nat)
    requires Copyable(directives) && Copyable(pipes)
    ensures Render(Head(imports, directives, pipes, id).parts) == imports + Render(directives) + Render(pipes)
  {
    hide AddStatement, Render;
    assert Render([]) == "" by { RenderLength([]); }
    var b := AddText(NOTHING, id, imports, null);
    RenderPart(NOTHING, Part(id, imports, 0, Some(|imports|), None, null));
    RenderStatement(b, directives, id + 1);
    RenderStatement(AddStatement(b, directives, id + 1), pipes, id + 1 + |directives|);
  }

  lemma StartIsSound()
    ensures Sound(START) && TreeOf(START) == BLANK && Orderly(BLANK)
  {
    assert ScopeSound(START, 0);
    assert ItemsOf([]) == [];
    SameSheets(TreeOf(START).sheets, BLANK.sheets);
  }

  /** The text of a generated block, after any run at all: the imports, the directives,
      the pipes, and the tree of texts that the operations make, in this order. */
  lemma RunText(ops: seq<Op>, imports: Text, directives: seq<Part>, pipes: seq<Part>)
    requires CanRun(ops) && Copyable(directives) && Copyable(pipes)
    ensures Sound(START) && Orderly(BLANK)
    ensures RunAll(START, ops).None? <==> PlayAll(BLANK, ops).None?
    ensures RunAll(START, ops).Some? ==>
              var st, t := RunAll(START, ops).value, PlayAll(BLANK, ops).value;
              && Sound(st)
              && Render(Block(st, imports, directives, pipes).parts) ==
                 imports + Render(directives) + Render(pipes) + TextOf(t, 0)
  {
    hide Sound, Orderly, Step, Play, Block, Head, Render, ScopeText;
    StartIsSound();
    RunPlays(START, ops);
    if RunAll(START, ops).Some? {
      var st := RunAll(START, ops).value;
      TargetExists(st, true);
      BlockIsExact(st, imports, directives, pipes);
      HeadText(imports, directives, pipes, ToStatement(st, 0, st.next).next);
      TreeIsOrderly(st);
      ScopeTextIs(st, 0, |st.scopes[0].built.parts|);
    }
  }

  // ----- what a generator writes -----

  /** What is generated in one place: pieces of text, statements, and groups in braces. */
  datatype Script =
    | Say(text: Text, pug: PugSpan?)
    | Quote(parts: seq<Part>)
    | Group(brace: Text, pug: PugSpan?, body: Scripts)

  datatype Scripts = Nil | Cons(head: Script, tail: Scripts)

  function OpsOf(s: Script): seq<Op> {
    match s
    case Say(text, pug) => [Write(false, text, pug)]
    case Quote(parts) => [WriteStatement(false, parts)]
    case Group(brace, pug, body) => [Open(brace, pug)] + OpsOfAll(body) + [Close]
  }

  function OpsOfAll(ss: Scripts): seq<Op> {
    match ss
    case Nil => []
    case Cons(s, rest) => OpsOf(s) + OpsOfAll(rest)
  }

  /** Its text, as it reads. */
  function ScriptText(s: Script): Text {
    match s
    case Say(text, _) => text
    case Quote(parts) => Render(parts)
    case Group(brace, _, body) => brace + ScriptsText(body) + "}\n"
  }

  function ScriptsText(ss: Scripts): Text {
    match ss
    case Nil => ""
    case Cons(s, rest) => ScriptText(s) + ScriptsText(rest)
  }

  lemma {:induction false} PlayTwo(t: Tree, a: seq<Op>, b: seq<Op>)
    requires Orderly(t)
    ensures PlayAll(t, a + b) == match PlayAll(t, a) { case None => None case Some(s) => PlayAll(s, b) }
    decreases |a|
  {
    if a == [] {
      assert a + b == b;
    } else {
      assert (a + b)[0] == a[0] && (a + b)[1..] == a[1..] + b;
      PlayOrderly(t, a[0]);
      if Play(t, a[0]).Some? {
        PlayTwo(Play(t, a[0]).value, a[1..], b);
      }
    }
  }

  lemma PlayOne(t: Tree, op: Op)
    requires Orderly(t)
    ensures PlayAll(t, [op]) == Play(t, op)
  {
    hide Play, Orderly;
    TreeHasRoot(t);
    PlayOrderly(t, op);
    if Play(t, op).Some? {
      assert [op][1..] == [];
    }
  }

  lemma ShorterPrefix(a: seq<Item>, b: seq<Item>, m: nat)
    requires 0 < m <= |a| && m <= |b| && a[..m] == b[..m]
    ensures a[m - 1] == b[m - 1] && a[..m - 1] == b[..m - 1]
  {
    assert a[..m][m - 1] == b[..m][m - 1] && a[..m - 1] == a[..m][..m - 1] && b[..m - 1] == b[..m][..m - 1];
  }

  /** Scopes other than the ones behind `c` do not matter to the text in front. */
  lemma {:induction false} SameText(t: Tree, r: Tree, c: nat, j: nat, m: nat)
    requires Orderly(t) && Orderly(r) && |t.sheets| <= |r.sheets| && c <= j < |t.sheets|
    requires forall x: nat :: c < x < |t.sheets| ==> r.sheets[x].items == t.sheets[x].items
    requires m <= |t.sheets[j].items| && m <= |r.sheets[j].items|
    requires r.sheets[j].items[..m] == t.sheets[j].items[..m]
    ensures SheetText(r, j, m) == SheetText(t, j, m)
    decreases |t.sheets| - j, m
  {
    hide Orderly, SheetText;
    NoText(t, j);
    NoText(r, j);
    if m > 0 {
      SheetTextStep(t, j, m);
      SheetTextStep(r, j, m);
      ShorterPrefix(t.sheets[j].items, r.sheets[j].items, m);
      SameText(t, r, c, j, m - 1);
      var item := t.sheets[j].items[m - 1];
      if item.Inner? {
        SameText(t, r, c, item.scope, |t.sheets[item.scope].items|);
      }
    }
  }

  /** Only the open scope grew, by these items at its end, and new scopes came. */
  ghost predicate Grown(t: Tree, r: Tree, more: seq<Item>) {
    && Orderly(t) && Orderly(r) && |t.sheets| <= |r.sheets|
    && (forall x: nat :: x < |t.sheets| && x != t.current ==> r.sheets[x] == t.sheets[x])
    && r.sheets[t.current] == t.sheets[t.current].(items := t.sheets[t.current].items + more)
  }

  lemma GrownText(t: Tree, r: Tree, more: seq<Item>)
    requires Grown(t, r, more)
    ensures SheetText(r, t.current, |t.sheets[t.current].items|) == TextOf(t, t.current)
  {
    hide Orderly, SheetText;
    TreeHasRoot(t);
    var items := t.sheets[t.current].items;
    assert (items + more)[..|items|] == items[..|items|];
    SameText(t, r, t.current, t.current, |items|);
  }

  lemma OneSaid(t: Tree, r: Tree, item: Item)
    requires Grown(t, r, [item]) && item.Said?
    ensures TextOf(r, t.current) == TextOf(t, t.current) + item.text
  {
    hide Orderly, SheetText;
    TreeHasRoot(t);
    GrownText(t, r, [item]);
    SheetTextStep(r, t.current, |r.sheets[t.current].items|);
  }

  lemma {:induction false} CopiesSaid(t: Tree, r: Tree, parts: seq<Part>, id: nat, n: nat)
    requires Grown(t, r, Copies(parts, id)) && n <= |parts|
    ensures |r.sheets[t.current].items| == |t.sheets[t.current].items| + |parts|
    ensures SheetText(r, t.current, |t.sheets[t.current].items| + n) == TextOf(t, t.current) + Render(parts[..n])
  {
    hide Orderly, SheetText;
    TreeHasRoot(t);
    if n == 0 {
      GrownText(t, r, Copies(parts, id));
    } else {
      CopiesSaid(t, r, parts, id, n - 1);
      SheetTextStep(r, t.current, |t.sheets[t.current].items| + n);
      assert parts[..n][..n - 1] == parts[..n - 1];
    }
  }

  /** From `t` to `r` exactly this text was added, at the end of the open scope. */
  ghost predicate Written(t: Tree, r: Tree, text: Text) {
    && Orderly(t) && Orderly(r) && |t.sheets| <= |r.sheets| && r.current == t.current
    && (forall x: nat :: x < |t.sheets| && x != t.current ==> r.sheets[x] == t.sheets[x])
    && r.sheets[t.current].parent == t.sheets[t.current].parent
    && TextOf(r, t.current) == TextOf(t, t.current) + text
  }

  lemma WrittenThen(a: Tree, b: Tree, c: Tree, x: Text, y: Text)
    requires Written(a, b, x) && Written(b, c, y)
    ensures Written(a, c, x + y)
  {
    hide Orderly, SheetText;
    TreeHasRoot(a);
    assert TextOf(a, a.current) + x + y == TextOf(a, a.current) + (x + y);
  }

  lemma SayWritten(t: Tree, text: Text, pug: PugSpan?)
    requires Orderly(t)
    ensures var r := Play(t, Write(false, text, pug)); r.Some? && Written(t, r.value, text)
  {
    hide Orderly, SheetText;
    TreeHasRoot(t);
    PlayOrderly(t, Write(false, text, pug));
    OneSaid(t, Play(t, Write(false, text, pug)).value, Said(t.next, text));
  }

  lemma QuoteWritten(t: Tree, parts: seq<Part>)
    requires Orderly(t)
    ensures var r := Play(t, WriteStatement(false, parts)); r.Some? && Written(t, r.value, Render(parts))
  {
    hide Orderly, SheetText, Render;
    TreeHasRoot(t);
    PlayOrderly(t, WriteStatement(false, parts));
    CopiesSaid(t, Play(t, WriteStatement(false, parts)).value, parts, t.next, |parts|);
    assert parts[..|parts|] == parts;
  }

  /** A group: its brace and its body stand in a scope of their own, at the end of the one
      around it. */
  lemma GroupWritten(t: Tree, brace: Text, pug: PugSpan?, inside: Tree, text: Text)
    requires Orderly(t)
    requires var begun := Play(t, Open(brace, pug)); begun.Some? && Written(begun.value, inside, text)
    ensures var r := Play(inside, Close); r.Some? && Written(t, r.value, brace + text + "}\n")
  {
    hide Orderly, SheetText;
    TreeHasRoot(t);
    TreeHasRoot(inside);
    var n, begun := |t.sheets|, Play(t, Open(brace, pug)).value;
    PlayOrderly(inside, Close);
    var r := Play(inside, Close).value;
    BraceText(t, begun, brace, pug);
    OneSaid(inside, r, Said(inside.next, "}\n"));
    assert Grown(t, r, [Inner(t.next, n)]);
    GrownText(t, r, [Inner(t.next, n)]);
    SheetTextStep(r, t.current, |t.sheets[t.current].items| + 1);
  }

  /** A new scope begins with its brace. */
  lemma BraceText(t: Tree, begun: Tree, brace: Text, pug: PugSpan?)
    requires Orderly(t) && Orderly(begun) && Play(t, Open(brace, pug)) == Some(begun)
    ensures TextOf(begun, |t.sheets|) == brace
  {
    hide Orderly, SheetText;
    TreeHasRoot(t);
    assert begun.sheets[|t.sheets|].items == [Said(t.next + 1, brace)];
    SheetTextStep(begun, |t.sheets|, 1);
    assert SheetText(begun, |t.sheets|, 0) == "" by { NoText(begun, |t.sheets|); }
  }

  lemma NoText(t: Tree, j: nat)
    requires Orderly(t) && j < |t.sheets|
    ensures SheetText(t, j, 0) == ""
  {
  }

  /** Running a script adds exactly its text, where the open scope ends, and touches no
      other scope that was there. */
  lemma {:induction false} ScriptWritten(t: Tree, s: Script)
    requires Orderly(t)
    ensures PlayAll(t, OpsOf(s)).Some? && Written(t, PlayAll(t, OpsOf(s)).value, ScriptText(s))
    decreases s
  {
    hide Orderly, Play, Written, Render;
    match s
    case Say(text, pug) =>
      SayWritten(t, text, pug);
      PlayOne(t, Write(false, text, pug));
    case Quote(parts) =>
      QuoteWritten(t, parts);
      PlayOne(t, WriteStatement(false, parts));
    case Group(brace, pug, body) =>
      TreeHasRoot(t);
      OpenOrderly(t, brace, pug);
      var begun := Play(t, Open(brace, pug)).value;
      ScriptsWritten(begun, body);
      var inside := PlayAll(begun, OpsOfAll(body)).value;
      GroupWritten(t, brace, pug, inside, ScriptsText(body));
      PlayOne(t, Open(brace, pug));
      PlayOne(inside, Close);
      PlayTwo(t, [Open(brace, pug)] + OpsOfAll(body), [Close]);
      PlayTwo(t, [Open(brace, pug)], OpsOfAll(body));
  }

  lemma {:induction false} ScriptsWritten(t: Tree, ss: Scripts)
    requires Orderly(t)
    ensures PlayAll(t, OpsOfAll(ss)).Some? && Written(t, PlayAll(t, OpsOfAll(ss)).value, ScriptsText(ss))
    decreases ss
  {
    hide Orderly, Play, SheetText;
    match ss
    case Nil => TreeHasRoot(t);
    case Cons(s, rest) =>
      ScriptWritten(t, s);
      var r := PlayAll(t, OpsOf(s)).value;
      ScriptsWritten(r, rest);
      PlayTwo(t, OpsOf(s), OpsOfAll(rest));
      WrittenThen(t, r, PlayAll(r, OpsOfAll(rest)).value, ScriptText(s), ScriptsText(rest));
  }
}
