/** A program's document, its nodes' elements, and the actions that edit them. */
module EditSession {
  import opened Texts
  import opened Positions
  import opened Edits
  import opened TextDiff

  class Element {
    var startOffset: nat
    var endOffset: nat

    constructor (startOffset: nat, endOffset: nat)
      ensures Value() == Span(startOffset, endOffset)
    {
      this.startOffset, this.endOffset := startOffset, endOffset;
    }

    ghost function Value(): Span
      reads this
    {
      Span(startOffset, endOffset)
    }

    method Copy() returns (e: Element)
      ensures fresh(e) && e.Value() == Value()
    {
      e := new Element(startOffset, endOffset);
    }

    method Edit(start: nat, oldEnd: nat, newEnd: nat)
      modifies this
      ensures Value() == EditSpan(old(Value()), start, oldEnd, newEnd)
    {
      if startOffset < start && endOffset < start {
        return;
      }
      var difference := newEnd - oldEnd;
      if startOffset > start {
        startOffset := Shift(startOffset, difference);
      }
      endOffset := Shift(endOffset, difference);
    }
  }

  class CommonNode {
    var element: Element
    var stagedElement: Element?

    constructor (element: Element)
      ensures this.element == element && stagedElement == null
    {
      this.element, stagedElement := element, null;
    }
  }

  class Session {
    var afterDocument: Text
    var beforeDocument: Text

    constructor (text: Text)
      ensures afterDocument == text && beforeDocument == text
    {
      afterDocument, beforeDocument := text, text;
    }
  }

  datatype Action = Invert | DeMorgan

  datatype Outcome = SessionInProgress | Performed(edits: Diff)

  /** The text an action is to leave behind. */
  function ActionText(d: Doc, n: Node, action: Action): Text
    requires n.Binary?
  {
    if action.Invert? then InvertDoc(d, n).text else DeMorganDoc(d, n).text
  }

  class ProgramContent {
    var text: Text
    var editSession: Session?
    /** All nodes of the program, in the order `visit` meets them. */
    const nodes: seq<CommonNode>
    /** The staged elements of a session. */
    ghost var staged: seq<Element>

    constructor (text: Text, nodes: seq<CommonNode>)
      ensures this.text == text && this.nodes == nodes && editSession == null && staged == []
    {
      this.text, this.nodes, editSession, staged := text, nodes, null, [];
    }

    /** No session; the nodes' own elements lie in the text as in `d`. */
    ghost predicate Idle(d: Doc)
      reads this, nodes, set i | 0 <= i < |nodes| :: nodes[i].element
    {
      && editSession == null && d.text == text && |d.spans| == |nodes|
      && (forall i, j :: 0 <= i < j < |nodes| ==> nodes[i] != nodes[j])
      && (forall i {:trigger d.spans[i]} {:trigger nodes[i]} :: 0 <= i < |nodes| ==>
            nodes[i].stagedElement == null && nodes[i].element.Value() == d.spans[i])
    }

    /** A session; the staged elements lie in its text as in `d`. */
    ghost predicate Staging(d: Doc)
      reads this, editSession, nodes, staged
    {
      && editSession != null && editSession.afterDocument == text && d.text == text
      && (forall i, j :: 0 <= i < j < |nodes| ==> nodes[i] != nodes[j]) && Elements(d.spans)
    }

    method BeginEditSession(ghost d: Doc)
      requires Idle(d)
      modifies this`editSession, this`staged, nodes
      ensures Staging(d) && fresh(editSession) && fresh(staged) && editSession.beforeDocument == text
      ensures forall i :: 0 <= i < |nodes| ==> nodes[i].element == old(nodes[i].element)
    {
      editSession := new Session(text);
      staged := [];
      for i := 0 to |nodes|
        invariant |staged| == i && fresh(staged) && fresh(editSession)
                  && editSession.beforeDocument == editSession.afterDocument == text
        invariant forall j :: 0 <= j < |nodes| ==> nodes[j].element == old(nodes[j].element)
        invariant forall j, k :: 0 <= j < k < i ==> staged[j] != staged[k]
        invariant forall j {:trigger staged[j]} :: 0 <= j < i ==>
                  nodes[j].stagedElement == staged[j] && staged[j].Value() == d.spans[j]
      {
        var stagedElement := nodes[i].element.Copy();
        nodes[i].stagedElement := stagedElement;
        staged := staged + [stagedElement];
      }
    }

    method DropEditSession(ghost d: Doc)
      requires Staging(d)
      modifies this`text, this`editSession, this`staged, nodes
      ensures editSession == null && text == old(editSession.beforeDocument)
      ensures forall i :: 0 <= i < |nodes| ==>
                nodes[i].element == old(nodes[i].element) && nodes[i].stagedElement == null
    {
      text := editSession.beforeDocument;
      editSession := null;
      staged := [];
      for i := 0 to |nodes|
        invariant editSession == null && text == old(editSession.beforeDocument)
        invariant forall j :: 0 <= j < |nodes| ==> nodes[j].element == old(nodes[j].element)
        invariant forall j :: 0 <= j < i ==> nodes[j].stagedElement == null
      {
        nodes[i].stagedElement := null;
      }
    }

    /** The staged elements are set to `spans`. */
    ghost predicate Elements(spans: seq<Span>)
      reads this`staged, nodes, staged
    {
      && |nodes| == |staged| == |spans|
      && (forall i, j :: 0 <= i < j < |nodes| ==> staged[i] != staged[j])
      && (forall i {:trigger staged[i]} :: 0 <= i < |nodes| ==>
            nodes[i].stagedElement == staged[i] && staged[i].Value() == spans[i])
    }

    /** `editTree`: visits every node. */
    method EditTree(start: nat, oldEnd: nat, newEnd: nat, ghost spans: seq<Span>)
      requires Elements(spans)
      modifies staged
      ensures Elements(seq(|spans|, k requires 0 <= k < |spans| => EditSpan(spans[k], start, oldEnd, newEnd)))
    {
      for i := 0 to |nodes|
        invariant forall j {:trigger staged[j]} :: 0 <= j < i ==>
                  staged[j].Value() == EditSpan(spans[j], start, oldEnd, newEnd)
        invariant forall j {:trigger staged[j]} :: i <= j < |nodes| ==> staged[j].Value() == spans[j]
      {
        var element := nodes[i].stagedElement;
        assert element == staged[i];
        element.Edit(start, oldEnd, newEnd);
      }
    }

    /** `commonNode.editText` for node `k`: the text changes and every staged element
        is told. */
    method EditText(k: nat, newText: Text, ghost d: Doc)
      requires Staging(d) && InText(d, k)
      modifies this`text, editSession`afterDocument, staged
      ensures Staging(Edits.EditText(d, k, newText)) && staged == old(staged)
    {
      hide EditSpan;
      var e := nodes[k].stagedElement;
      assert e == staged[k] && e.Value() == d.spans[k];
      var startOffset, oldEndOffset := e.startOffset, e.endOffset;
      text := text[..startOffset] + newText + text[oldEndOffset..];
      editSession.afterDocument := text;
      assert text == Edits.EditText(d, k, newText).text;
      EditTree(startOffset, oldEndOffset, startOffset + |newText|, d.spans);
    }

    /** `getText` of node `k`. */
    method GetText(k: nat, ghost d: Doc) returns (t: Text)
      requires Staging(d) && InText(d, k)
      ensures t == Slice(d.text, Start(d, k), End(d, k))
    {
      var e := nodes[k].stagedElement;
      assert e == staged[k];
      t := editSession.afterDocument[e.startOffset..e.endOffset];
    }

    /** `binaryExpressionOperator.invert`. */
    method InvertOperator(op: nat, ghost d: Doc)
      requires Staging(d) && InText(d, op)
      modifies this`text, editSession`afterDocument, staged
      ensures Staging(FlipOperator(d, op)) && staged == old(staged)
    {
      var operator := GetText(op, d);
      if operator == "&&" {
        EditText(op, "||", d);
      } else if operator == "===" {
        EditText(op, "!==", d);
      } else if operator == "==" {
        EditText(op, "!=", d);
      } else if operator == ">" {
        EditText(op, "<=", d);
      } else if operator == ">=" {
        EditText(op, "<", d);
      } else if operator == "<" {
        EditText(op, ">=", d);
      } else if operator == "<=" {
        EditText(op, ">=", d);
      } else if operator == "!==" {
        EditText(op, "===", d);
      } else if operator == "!=" {
        EditText(op, "==", d);
      } else if operator == "||" {
        EditText(op, "&&", d);
      }
    }

    /** `binaryExpression.invert`.  The tree must lie in the text, so that no slice
        goes wrong on the way; gaps are not asked for. */
    method InvertNode(n: Node, ghost d: Doc)
      requires Staging(d) && n.Binary? && Fits(d, n, false)
      modifies this`text, editSession`afterDocument, staged
      ensures Staging(InvertDoc(d, n)) && staged == old(staged)
      decreases n, 0
    {
      hide FlipOperator, Flip, InvertOperandDoc, Fits, Staging, Replaced;
      InvertStays(d, n);
      InvertOperand(n.left, d);
      ghost var d1 := InvertOperandDoc(d, n.left);
      InvertOperator(n.op, d1);
      InvertOperand(n.right, FlipOperator(d1, n.op));
    }

    method InvertOperand(n: Node, ghost d: Doc)
      requires Staging(d) && Fits(d, n, false)
      modifies this`text, editSession`afterDocument, staged
      ensures Staging(InvertOperandDoc(d, n)) && staged == old(staged)
      decreases n, 1
    {
      hide InvertDoc, Staging;
      if AsBinary(n).Binary? {
        InvertNode(AsBinary(n), d);
      }
    }

    /** `binaryExpression.deMorgans`. */
    method DeMorgans(n: Node, ghost d: Doc)
      requires Staging(d) && n.Binary? && Fits(d, n, false)
      modifies this`text, editSession`afterDocument, staged
      ensures Staging(DeMorganDoc(d, n)) && staged == old(staged)
    {
      hide InvertDoc, Staging, Fits, Edits.EditText;
      InvertNode(n, d);
      ghost var now := InvertDoc(d, n);
      NodeStays(d, n);
      var t := GetText(n.el, now);
      EditText(n.el, "!(" + t + ")", now);
    }

    /** `applyAction`: performs the action in a session of its own, sends the
        difference as one edit, and forgets the session. */
    method ApplyAction(n: Node, action: Action, ghost d: Doc) returns (r: Outcome)
      requires editSession == null ==> Idle(d) && n.Binary? && Fits(d, n, false)
      modifies this, nodes
      ensures editSession == old(editSession) && text == old(text)
      ensures old(editSession) != null ==> r == SessionInProgress
      ensures old(editSession) == null ==> Idle(d) && r == Performed(DiffOf(d.text, ActionText(d, n, action)))
    {
      hide Elements, InvertDoc, DeMorganDoc, Fits, DiffOf;
      if editSession != null {
        return SessionInProgress;
      }
      BeginEditSession(d);
      if action.Invert? {
        InvertNode(n, d);
      } else {
        DeMorgans(n, d);
      }
      ghost var now := if action.Invert? then InvertDoc(d, n) else DeMorganDoc(d, n);
      var edits := BuildLspTextEdits(editSession.beforeDocument, editSession.afterDocument);
      DropEditSession(now);
      return Performed(edits);
    }
  }

  /** Where `invert` meets the parts of a node. */
  lemma InvertStays(d: Doc, n: Node)
    requires n.Binary? && Fits(d, n, false)
    ensures var d1 := InvertOperandDoc(d, n.left);
            && Fits(d, n.left, false) && InText(d1, n.op) && Fits(FlipOperator(d1, n.op), n.right, false)
  {
    hide Replaced, FlipOperator, Flip, InvertOperandDoc, InvertedOperand, Slice, TextReplaced, Start, End, Fits, Read;
    var d1 := InvertOperandDoc(d, n.left);
    Parts(d, n, false);
    InvertOperandText(d, n.left);
    var t1 := Unparse(InvertedOperand(Read(d, n.left)));
    MovedBehind(d, d1, Start(d, n.left.el), End(d, n.left.el), t1, n.op, false);
    TreeBehind(d, d1, Start(d, n.left.el), End(d, n.left.el), t1, n.right, false, false);
    FlipReplacesLoosely(d1, n.op);
    var t2 := Flip(Slice(d1.text, Start(d1, n.op), End(d1, n.op)));
    TreeBehind(d1, FlipOperator(d1, n.op), Start(d1, n.op), End(d1, n.op), t2, n.right, false, false);
  }

  lemma NodeStays(d: Doc, n: Node)
    requires n.Binary? && Fits(d, n, false)
    ensures InText(InvertDoc(d, n), n.el)
  {
    hide Replaced, InvertDoc, Inverted, Read, Fits;
    PartsRead(d, n);
    InTree(d, n, false);
    InvertText(d, n);
    Around(d, InvertDoc(d, n), Start(d, n.el), End(d, n.el), Unparse(Inverted(Read(d, n))), n.el, false);
  }

  /** What an action puts in the place of a node. */
  function ActionResult(source: Source, action: Action): Text
    requires source.Infix?
  {
    if action.Invert? then Unparse(Inverted(source)) else "!(" + Unparse(Inverted(source)) + ")"
  }

  /** From the action to the client: in a document that ends in a line break, applying
      the one edit that is sent replaces the node's text by the rewritten expression
      and touches nothing else. */
  lemma ActionReachesClient(d: Doc, n: Node, action: Action)
    requires n.Binary? && Fits(d, n, false) && EndsInBreak(d.text) && |d.text| < UINT_MODULUS && End(d, n.el) < |d.text|
    ensures Start(d, n.el) <= End(d, n.el) && Read(d, n).Infix?
    ensures Applied(d.text, DiffOf(d.text, ActionText(d, n, action))) ==
            Splice(d.text, Start(d, n.el), End(d, n.el), ActionResult(Read(d, n), action))
  {
    hide Fits, InvertDoc, DeMorganDoc, Replaced, Applied, DiffOf, Unparse, Inverted, Read;
    PartsRead(d, n);
    InTree(d, n, false);
    var s, e := Start(d, n.el), End(d, n.el);
    if action.Invert? {
      InvertText(d, n);
      ReplacedText(d, InvertDoc(d, n), s, e, Unparse(Inverted(Read(d, n))), false);
    } else {
      DeMorganText(d, n);
    }
    var after := ActionText(d, n, action);
    assert after == Splice(d.text, s, e, ActionResult(Read(d, n), action));
    assert after[|after| - 1] == d.text[|d.text| - 1];
    EditRestoresExactlyWhen(d.text, after);
  }
}
