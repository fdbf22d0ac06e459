/** What the translated expressions are as TypeScript, and what checking them says about
    the template's own expressions. */
module TcbTypes {
  import opened Texts
  import opened TcbShift

  // ----- TypeScript -----

  /** A TypeScript expression. */
  datatype Ts =
    | Raw(text: Text)
    | Asserted(value: Ts)
    | Prefix(op: Text, value: Ts)
    | Infix(left: Ts, op: Text, right: Ts)
    | Sum(left: Ts, right: Ts)
    | Choice(condition: Ts, consequence: Ts, alternative: Ts)
    | Bracketed(inner: Ts)
    | Property(object: Ts, name: Text)
    | Element(object: Ts, key: Ts)
    | Assignment(target: Ts, value: Ts)
    | Record(fields: Fields)
    | Applied(function_: Ts, args: Items)
    | AsAny(value: Ts)
    | Listed(items: Items)

  datatype Items = End | Item(head: Ts, tail: Items)

  datatype Fields = NoFields | Field(key: Text, value: Ts, tail: Fields)

  /** TypeScript's notation. */
  function Print(t: Ts): Text {
    match t
    case Raw(text) => text
    case Asserted(x) => Print(x) + "!"
    case Prefix(op, x) => op + Print(x)
    case Infix(l, op, r) => Print(l) + op + Print(r)
    case Sum(l, r) => Print(l) + " + " + Print(r)
    case Choice(c, x, y) => Print(c) + " ? " + Print(x) + " : " + Print(y)
    case Bracketed(x) => "(" + Print(x) + ")"
    case Property(o, name) => Print(o) + "." + name
    case Element(o, key) => Print(o) + "[" + Print(key) + "]"
    case Assignment(x, y) => Print(x) + " = " + Print(y)
    case Record(fields) => "{" + PrintFields(fields) + "}"
    case Applied(f, args) => Print(f) + "(" + PrintItems(args) + ")"
    case AsAny(x) => Print(x) + " as any"
    case Listed(items) => "[" + PrintItems(items) + "]"
  }

  function PrintItems(ts: Items): Text {
    match ts
    case End => ""
    case Item(t, End) => Print(t)
    case Item(t, rest) => Print(t) + ", " + PrintItems(rest)
  }

  function PrintFields(fs: Fields): Text {
    match fs
    case NoFields => ""
    case Field(key, t, NoFields) => "\"" + key + "\": " + Print(t)
    case Field(key, t, rest) => "\"" + key + "\": " + Print(t) + ", " + PrintFields(rest)
  }

  // ----- the expression that is written -----

  function This(name: Text): Ts {
    Property(Raw("this"), name)
  }

  /** `0 as any`: a value of which nothing is known. */
  function Anything(): Ts {
    AsAny(Raw("0"))
  }

  /** The value, or undefined. */
  function Perhaps(t: Ts): Ts {
    Bracketed(Choice(Anything(), t, Raw("undefined")))
  }

  function Lower(e: Expr): Ts {
    match e
    case Token(text, _) => Raw(text)
    case Identifier(name, _, bang) => if bang then Asserted(This(name)) else This(name)
    case Unary(op, _, value) => Prefix(op, Lower(value))
    case Binary(l, op, _, r) => Infix(Lower(l), op, Lower(r))
    case Conditional(c, t, f) => Choice(Lower(c), Lower(t), Lower(f))
    case Group(inner) => Bracketed(Lower(inner))
    case Template(elements) => if elements.Nil? then Raw("") else LowerElements(Raw("''"), elements)
    case Keyed(access, o, key) => LowerKeyed(access, Lower(o), Lower(key))
    case Member(access, o, name, _) => LowerMember(access, Lower(o), name)
    case Write(target, value) => Bracketed(Assignment(Lower(target), Lower(value)))
    case Object(pairs) => Record(LowerPairs(pairs))
    case Call(access, f, _, args) => LowerCall(access, Lower(f), LowerAll(args))
    case AnyCast(arg) => Bracketed(AsAny(Lower(arg)))
    case Array(_, elements) => Listed(LowerAll(elements))
  }

  function LowerKeyed(access: Access, o: Ts, key: Ts): Ts {
    match access
    case Plain => Element(o, key)
    case NonNull => Element(Asserted(o), key)
    case Safe => Perhaps(Element(Asserted(o), key))
  }

  function LowerMember(access: Access, o: Ts, name: Text): Ts {
    match access
    case Plain => Property(o, name)
    case NonNull => Property(Asserted(o), name)
    case Safe => Perhaps(Property(Asserted(o), name))
  }

  /** A call through `!.` reads a property without a name. */
  function LowerCall(access: Access, f: Ts, args: Items): Ts {
    match access
    case Plain => Applied(f, args)
    case NonNull => Applied(Property(Asserted(f), ""), args)
    case Safe => Bracketed(Perhaps(Applied(Asserted(f), args)))
  }

  function LowerAll(es: Exprs): Items {
    match es
    case Nil => End
    case Cons(e, rest) => Item(Lower(e), LowerAll(rest))
  }

  function LowerElements(sum: Ts, es: Exprs): Ts
    decreases es
  {
    match es
    case Nil => sum
    case Cons(e, rest) => LowerElements(Sum(sum, Lower(e)), rest)
  }

  function LowerPairs(ps: Pairs): Fields {
    match ps
    case NoPairs => NoFields
    case Pair(key, _, value, rest) => Field(key, Lower(value), LowerPairs(rest))
    case Lone(key, _, rest) => Field(key, Anything(), LowerPairs(rest))
  }

  // ----- the text that is written -----

  lemma ThisPrints(name: Text)
    ensures Print(This(name)) == "this." + name && Print(Asserted(This(name))) == "this." + name + "!"
  {
    assert "this" + "." == "this.";
  }

  lemma PerhapsPrints(t: Ts)
    ensures Print(Perhaps(t)) == IfDefined(Print(t))
  {
    assert Print(Anything()) == "0 as any";
    assert Print(Raw("undefined")) == "undefined";
    Guards(Print(t));
  }

  lemma Guards(code: Text)
    ensures "(" + ("0 as any" + " ? " + code + " : " + "undefined") + ")" == IfDefined(code)
  {
  }

  lemma KeyedPrints(access: Access, o: Ts, key: Ts)
    ensures Print(LowerKeyed(access, o, key)) == CodeKeyed(access, Print(o), Print(key))
  {
    var read := Element(Asserted(o), key);
    PerhapsPrints(read);
    assert Print(read) == Print(o) + "!" + "[" + Print(key) + "]" == Print(o) + "![" + Print(key) + "]";
  }

  lemma MemberPrints(access: Access, o: Ts, name: Text)
    ensures Print(LowerMember(access, o, name)) == CodeMember(access, Print(o), name)
  {
    var read := Property(Asserted(o), name);
    PerhapsPrints(read);
    assert Print(read) == Print(o) + "!" + "." + name == Print(o) + "!." + name;
  }

  lemma CallPrints(access: Access, f: Ts, args: Items)
    ensures Print(LowerCall(access, f, args)) == CodeCall(access, Print(f), "(" + PrintItems(args) + ")")
  {
    match access
    case Plain => assert Print(Applied(f, args)) == Print(f) + ("(" + PrintItems(args) + ")");
    case NonNull =>
      assert Print(Property(Asserted(f), "")) == Print(f) + "!" + "." + "" == Print(f) + "!.";
    case Safe =>
      var call := Applied(Asserted(f), args);
      PerhapsPrints(call);
      assert Print(call) == Print(f) + "!" + ("(" + PrintItems(args) + ")");
  }

  lemma {:induction false} ItemsPrint(es: Exprs, first: bool)
    ensures CodeArgs(es, first) == (if es.Nil? || first then "" else ", ") + PrintItems(LowerAll(es))
    ensures first ==> CodeArgs(es, first) == PrintItems(LowerAll(es))
  {
    match es
    case Nil =>
    case Cons(e, rest) =>
      CodeIsPrinted(e);
      ItemsPrint(rest, false);
  }

  lemma {:induction false} ElementsPrint(sum: Ts, es: Exprs)
    ensures Print(LowerElements(sum, es)) == Print(sum) + CodeElements(es)
    decreases es
  {
    match es
    case Nil =>
    case Cons(e, rest) =>
      CodeIsPrinted(e);
      ElementsPrint(Sum(sum, Lower(e)), rest);
  }

  lemma {:induction false} PairsPrint(ps: Pairs, first: bool)
    ensures CodePairs(ps, first) == (if ps.NoPairs? || first then "" else ", ") + PrintFields(LowerPairs(ps)) + "}"
  {
    hide Print, Code, Lower, CodePairs, PrintFields;
    match ps
    case NoPairs => NoPairsPrint(first);
    case Pair(key, p, value, rest) =>
      CodeIsPrinted(value);
      PairsPrint(rest, false);
      PairIsCoded(key, p, value, rest, first);
      PairPrints(key, Lower(value), LowerPairs(rest), first);
    case Lone(key, p, rest) =>
      PairsPrint(rest, false);
      LoneIsCoded(key, p, rest, first);
      PairPrints(key, Anything(), LowerPairs(rest), first);
  }

  lemma NoPairsPrint(first: bool)
    ensures CodePairs(NoPairs, first) == "" + PrintFields(NoFields) + "}"
  {
  }

  lemma PairIsCoded(key: Text, p: Place, value: Expr, rest: Pairs, first: bool)
    ensures CodePairs(Pair(key, p, value, rest), first) ==
            (if first then "" else ", ") + "\"" + key + "\": " + Code(value) + CodePairs(rest, false)
  {
  }

  lemma LoneIsCoded(key: Text, p: Place, rest: Pairs, first: bool)
    ensures CodePairs(Lone(key, p, rest), first) ==
            (if first then "" else ", ") + "\"" + key + "\": " + Print(Anything()) + CodePairs(rest, false)
  {
    LonePrints(key);
    Associates(if first then "" else ", ", "\"", key);
    Associates(if first then "" else ", ", "\"" + key, "\": 0 as any");
    Associates(if first then "" else ", ", "\"" + key, "\": ");
    Associates(if first then "" else ", ", "\"" + key + "\": ", Print(Anything()));
  }

  lemma PairPrints(key: Text, value: Ts, rest: Fields, first: bool)
    ensures var comma := if first then "" else ", ";
            comma + "\"" + key + "\": " + Print(value) + ((if rest.NoFields? then "" else ", ") + PrintFields(rest)
                + "}") == comma + PrintFields(Field(key, value, rest)) + "}"
  {
    var tail := (if rest.NoFields? then "" else ", ") + PrintFields(rest);
    FieldPrints(key, value, rest);
    Regroups(if first then "" else ", ", "\"", key, "\": ", Print(value), tail, "}");
    Associates(if rest.NoFields? then "" else ", ", PrintFields(rest), "}");
  }

  lemma FieldPrints(key: Text, value: Ts, rest: Fields)
    ensures PrintFields(Field(key, value, rest)) ==
            "\"" + key + "\": " + Print(value) + ((if rest.NoFields? then "" else ", ") + PrintFields(rest))
  {
  }

  lemma Regroups(a: Text, b: Text, c: Text, d: Text, e: Text, f: Text, g: Text)
    ensures a + b + c + d + e + (f + g) == a + (b + c + d + e + f) + g
  {
  }

  lemma LonePrints(key: Text)
    ensures "\"" + key + "\": 0 as any" == "\"" + key + "\": " + Print(Anything())
  {
    assert Print(Anything()) == "0 as any";
    assert "\": 0 as any" == "\": " + "0 as any";
  }

  lemma WritePrints(target: Ts, value: Ts)
    ensures Print(Bracketed(Assignment(target, value))) == "(" + Print(target) + " = " + Print(value) + ")"
  {
    Associates("(", Print(target) + " = ", Print(value));
    Associates("(", Print(target), " = ");
  }

  lemma CastPrints(arg: Ts)
    ensures Print(Bracketed(AsAny(arg))) == "(" + Print(arg) + " as any)"
  {
    assert " as any" + ")" == " as any)";
    Associates("(", Print(arg), " as any");
    Associates("(" + Print(arg), " as any", ")");
  }

  /** The text that is written is that of the TypeScript expression. */
  lemma {:induction false} CodeIsPrinted(e: Expr)
    ensures Code(e) == Print(Lower(e))
    decreases e, 1
  {
    hide LowerKeyed, LowerMember, LowerCall, CodeKeyed, CodeMember, CodeCall, CodePairs, CodeArgs, CodeElements,
        LowerElements, LowerAll, LowerPairs, PrintItems, PrintFields;
    match e
    case Token(_, _) =>
    case Identifier(name, _, _) => ThisPrints(name);
    case Template(elements) => ElementsPrint(Raw("''"), elements);
    case Keyed(access, o, key) =>
      CodeIsPrinted(o);
      CodeIsPrinted(key);
      KeyedPrints(access, Lower(o), Lower(key));
    case Member(access, o, name, _) =>
      CodeIsPrinted(o);
      MemberPrints(access, Lower(o), name);
    case Object(pairs) => PairsPrint(pairs, true);
    case Call(access, f, _, args) =>
      CodeIsPrinted(f);
      ItemsPrint(args, true);
      CallPrints(access, Lower(f), LowerAll(args));
    case Array(_, elements) => ItemsPrint(elements, true);
    case _ => OperatorIsPrinted(e);
  }

  lemma {:induction false} OperatorIsPrinted(e: Expr)
    requires e.Unary? || e.Binary? || e.Conditional? || e.Group? || e.Write? || e.AnyCast?
    ensures Code(e) == Print(Lower(e))
    decreases e, 0
  {
    match e
    case Unary(_, _, value) => CodeIsPrinted(value);
    case Binary(l, _, _, r) =>
      CodeIsPrinted(l);
      CodeIsPrinted(r);
    case Conditional(c, t, f) =>
      CodeIsPrinted(c);
      CodeIsPrinted(t);
      CodeIsPrinted(f);
    case Group(inner) => CodeIsPrinted(inner);
    case Write(target, value) =>
      CodeIsPrinted(target);
      CodeIsPrinted(value);
      WritePrints(Lower(target), Lower(value));
    case AnyCast(arg) =>
      CodeIsPrinted(arg);
      CastPrints(Lower(arg));
  }

  // ----- what checking says -----

  /** What checking an expression says, built from what checking its parts says; nothing
      is assumed of how. */
  datatype Checking<!T> = Checking(
    raw: Text -> T,
    asserted: T -> T,
    prefix: (Text, T) -> T,
    infix: (T, Text, T) -> T,
    choice: (T, T, T) -> T,
    property: (T, Text) -> T,
    element: (T, T) -> T,
    assignment: (T, T) -> T,
    record: T -> T,
    applied: (T, T) -> T,
    asAny: T -> T,
    listed: T -> T,
    none: T,
    more: (T, T) -> T,
    field: (Text, T, T) -> T)

  function Value<T>(c: Checking<T>, t: Ts): T {
    match t
    case Raw(text) => c.raw(text)
    case Asserted(x) => c.asserted(Value(c, x))
    case Prefix(op, x) => c.prefix(op, Value(c, x))
    case Infix(l, op, r) => c.infix(Value(c, l), op, Value(c, r))
    case Sum(l, r) => c.infix(Value(c, l), "+", Value(c, r))
    case Choice(x, y, z) => c.choice(Value(c, x), Value(c, y), Value(c, z))
    case Bracketed(x) => Value(c, x)
    case Property(o, name) => c.property(Value(c, o), name)
    case Element(o, key) => c.element(Value(c, o), Value(c, key))
    case Assignment(x, y) => c.assignment(Value(c, x), Value(c, y))
    case Record(fields) => c.record(ValueFields(c, fields))
    case Applied(f, args) => c.applied(Value(c, f), ValueItems(c, args))
    case AsAny(x) => c.asAny(Value(c, x))
    case Listed(items) => c.listed(ValueItems(c, items))
  }

  function ValueItems<T>(c: Checking<T>, ts: Items): T {
    match ts
    case End => c.none
    case Item(t, rest) => c.more(Value(c, t), ValueItems(c, rest))
  }

  function ValueFields<T>(c: Checking<T>, fs: Fields): T {
    match fs
    case NoFields => c.none
    case Field(key, t, rest) => c.field(key, Value(c, t), ValueFields(c, rest))
  }

  /** Nothing is known of it. */
  function Unknown<T>(c: Checking<T>): T {
    c.asAny(c.raw("0"))
  }

  /** A value that may also be undefined. */
  function OrUndefined<T>(c: Checking<T>, v: T): T {
    c.choice(Unknown(c), v, c.raw("undefined"))
  }

  /** What is read through an access: `?.` and `!.` both take a receiver that is there. */
  function Receiver<T>(c: Checking<T>, access: Access, v: T): T {
    if access.Plain? then v else c.asserted(v)
  }

  /** What an access gives: `?.` may give undefined. */
  function Outcome<T>(c: Checking<T>, access: Access, v: T): T {
    if access.Safe? then OrUndefined(c, v) else v
  }

  /** What checking says about the template's expression. */
  function Meaning<T>(c: Checking<T>, e: Expr): T
    decreases e
  {
    match e
    case Token(text, _) => c.raw(text)
    case Identifier(name, _, bang) =>
      Receiver(c, if bang then NonNull else Plain, c.property(c.raw("this"), name))
    case Unary(op, _, value) => c.prefix(op, Meaning(c, value))
    case Binary(l, op, _, r) => c.infix(Meaning(c, l), op, Meaning(c, r))
    case Conditional(x, y, z) => c.choice(Meaning(c, x), Meaning(c, y), Meaning(c, z))
    case Group(inner) => Meaning(c, inner)
    case Template(elements) =>
      if elements.Nil? then c.raw("") else MeaningOfSum(c, c.raw("''"), elements)
    case Keyed(access, o, key) =>
      Outcome(c, access, c.element(Receiver(c, access, Meaning(c, o)), Meaning(c, key)))
    case Member(access, o, name, _) => Outcome(c, access, c.property(Receiver(c, access, Meaning(c, o)), name))
    case Write(target, value) => c.assignment(Meaning(c, target), Meaning(c, value))
    case Object(pairs) => c.record(MeaningOfPairs(c, pairs))
    case Call(access, f, _, args) =>
      Outcome(c, access, c.applied(Receiver(c, access, Meaning(c, f)), MeaningOfAll(c, args)))
    case AnyCast(arg) => c.asAny(Meaning(c, arg))
    case Array(_, elements) => c.listed(MeaningOfAll(c, elements))
  }

  function MeaningOfAll<T>(c: Checking<T>, es: Exprs): T
    decreases es
  {
    match es
    case Nil => c.none
    case Cons(e, rest) => c.more(Meaning(c, e), MeaningOfAll(c, rest))
  }

  function MeaningOfSum<T>(c: Checking<T>, sum: T, es: Exprs): T
    decreases es
  {
    match es
    case Nil => sum
    case Cons(e, rest) => MeaningOfSum(c, c.infix(sum, "+", Meaning(c, e)), rest)
  }

  function MeaningOfPairs<T>(c: Checking<T>, ps: Pairs): T
    decreases ps
  {
    match ps
    case NoPairs => c.none
    case Pair(key, _, value, rest) => c.field(key, Meaning(c, value), MeaningOfPairs(c, rest))
    case Lone(key, _, rest) => c.field(key, Unknown(c), MeaningOfPairs(c, rest))
  }

  // ----- when it is TypeScript -----

  /** Every part has a text of its own: no property is without a name. */
  predicate Whole(t: Ts) {
    match t
    case Raw(text) => text != ""
    case Asserted(x) => Whole(x)
    case Prefix(_, x) => Whole(x)
    case Infix(l, _, r) => Whole(l) && Whole(r)
    case Sum(l, r) => Whole(l) && Whole(r)
    case Choice(c, x, y) => Whole(c) && Whole(x) && Whole(y)
    case Bracketed(x) => Whole(x)
    case Property(o, name) => Whole(o) && name != ""
    case Element(o, key) => Whole(o) && Whole(key)
    case Assignment(x, y) => Whole(x) && Whole(y)
    case Record(fields) => WholeFields(fields)
    case Applied(f, args) => Whole(f) && WholeItems(args)
    case AsAny(x) => Whole(x)
    case Listed(items) => WholeItems(items)
  }

  predicate WholeItems(ts: Items) {
    match ts
    case End => true
    case Item(t, rest) => Whole(t) && WholeItems(rest)
  }

  predicate WholeFields(fs: Fields) {
    match fs
    case NoFields => true
    case Field(_, t, rest) => Whole(t) && WholeFields(rest)
  }

  /** Literals and names have a text, as they have in every template. */
  predicate Spelled(e: Expr) {
    match e
    case Token(text, _) => text != ""
    case Identifier(name, _, _) => name != ""
    case Unary(_, _, value) => Spelled(value)
    case Binary(l, _, _, r) => Spelled(l) && Spelled(r)
    case Conditional(c, t, f) => Spelled(c) && Spelled(t) && Spelled(f)
    case Group(inner) => Spelled(inner)
    case Template(elements) => SpelledAll(elements)
    case Keyed(_, o, key) => Spelled(o) && Spelled(key)
    case Member(_, o, name, _) => Spelled(o) && name != ""
    case Write(target, value) => Spelled(target) && Spelled(value)
    case Object(pairs) => SpelledPairs(pairs)
    case Call(_, f, _, args) => Spelled(f) && SpelledAll(args)
    case AnyCast(arg) => Spelled(arg)
    case Array(_, elements) => SpelledAll(elements)
  }

  predicate SpelledAll(es: Exprs) {
    match es
    case Nil => true
    case Cons(e, rest) => Spelled(e) && SpelledAll(rest)
  }

  predicate SpelledPairs(ps: Pairs) {
    match ps
    case NoPairs => true
    case Pair(_, _, value, rest) => Spelled(value) && SpelledPairs(rest)
    case Lone(_, _, rest) => SpelledPairs(rest)
  }

  /** No function is called through `!.`, and no template string is empty. */
  predicate Writable(e: Expr) {
    match e
    case Token(_, _) => true
    case Identifier(_, _, _) => true
    case Unary(_, _, value) => Writable(value)
    case Binary(l, _, _, r) => Writable(l) && Writable(r)
    case Conditional(c, t, f) => Writable(c) && Writable(t) && Writable(f)
    case Group(inner) => Writable(inner)
    case Template(elements) => elements.Cons? && WritableAll(elements)
    case Keyed(_, o, key) => Writable(o) && Writable(key)
    case Member(_, o, _, _) => Writable(o)
    case Write(target, value) => Writable(target) && Writable(value)
    case Object(pairs) => WritablePairs(pairs)
    case Call(access, f, _, args) => !access.NonNull? && Writable(f) && WritableAll(args)
    case AnyCast(arg) => Writable(arg)
    case Array(_, elements) => WritableAll(elements)
  }

  predicate WritableAll(es: Exprs) {
    match es
    case Nil => true
    case Cons(e, rest) => Writable(e) && WritableAll(rest)
  }

  predicate WritablePairs(ps: Pairs) {
    match ps
    case NoPairs => true
    case Pair(_, _, value, rest) => Writable(value) && WritablePairs(rest)
    case Lone(_, _, rest) => WritablePairs(rest)
  }

  lemma {:induction false} WholeExactly(e: Expr)
    requires Spelled(e)
    ensures Whole(Lower(e)) <==> Writable(e)
    decreases e
  {
    hide LowerKeyed, LowerMember, LowerCall;
    match e
    case Token(_, _) =>
    case Identifier(name, _, _) => WholeName(name);
    case Unary(_, _, value) => WholeExactly(value);
    case Binary(l, _, _, r) =>
      WholeExactly(l);
      WholeExactly(r);
    case Conditional(c, t, f) =>
      WholeExactly(c);
      WholeExactly(t);
      WholeExactly(f);
    case Group(inner) => WholeExactly(inner);
    case Template(elements) =>
      WholeQuotes();
      WholeSum(Raw("''"), elements);
    case Keyed(access, o, key) =>
      WholeExactly(o);
      WholeExactly(key);
      WholeKeyed(access, Lower(o), Lower(key));
    case Member(access, o, name, _) =>
      WholeExactly(o);
      WholeMember(access, Lower(o), name);
    case Write(target, value) =>
      WholeExactly(target);
      WholeExactly(value);
    case Object(pairs) => WholePairs(pairs);
    case Call(access, f, _, args) =>
      WholeExactly(f);
      WholeAll(args);
      WholeCall(access, Lower(f), LowerAll(args));
    case AnyCast(arg) => WholeExactly(arg);
    case Array(_, elements) => WholeAll(elements);
  }

  lemma WholeTernary(x: Ts, y: Ts, z: Ts)
    ensures Whole(Bracketed(Choice(x, y, z))) <==> Whole(x) && Whole(y) && Whole(z)
  {
  }

  lemma WholeCast(x: Ts)
    ensures Whole(AsAny(x)) <==> Whole(x)
  {
  }

  lemma WholeChoice(t: Ts)
    ensures Whole(Anything()) && (Whole(Perhaps(t)) <==> Whole(t))
  {
    hide Whole;
    WholeRaw("0");
    WholeRaw("undefined");
    assert |"0"| == 1 && |"undefined"| == 9;
    WholeTernary(Anything(), t, Raw("undefined"));
    WholeCast(Raw("0"));
  }

  lemma WholeRaw(text: Text)
    ensures Whole(Raw(text)) <==> text != ""
  {
  }

  lemma WholeQuotes()
    ensures Whole(Raw("''")) && !Whole(Raw(""))
  {
    hide Whole;
    WholeRaw("''");
    WholeRaw("");
    assert |"''"| == 2;
  }

  lemma WholeName(name: Text)
    ensures Whole(This(name)) <==> name != ""
  {
    WholeRaw("this");
    assert |"this"| == 4;
  }

  lemma WholeKeyed(access: Access, o: Ts, key: Ts)
    ensures Whole(LowerKeyed(access, o, key)) <==> Whole(o) && Whole(key)
  {
    WholeChoice(Element(Asserted(o), key));
  }

  lemma WholeMember(access: Access, o: Ts, name: Text)
    ensures Whole(LowerMember(access, o, name)) <==> Whole(o) && name != ""
  {
    WholeChoice(Property(Asserted(o), name));
  }

  /** A call through `!.` reads a property without a name. */
  lemma WholeCall(access: Access, f: Ts, args: Items)
    ensures Whole(LowerCall(access, f, args)) <==> !access.NonNull? && Whole(f) && WholeItems(args)
  {
    WholeChoice(Applied(Asserted(f), args));
  }

  lemma {:induction false} WholeAll(es: Exprs)
    requires SpelledAll(es)
    ensures WholeItems(LowerAll(es)) <==> WritableAll(es)
    decreases es
  {
    match es
    case Nil =>
    case Cons(e, rest) =>
      WholeExactly(e);
      WholeAll(rest);
  }

  lemma {:induction false} WholeSum(sum: Ts, es: Exprs)
    requires SpelledAll(es)
    ensures Whole(LowerElements(sum, es)) <==> Whole(sum) && WritableAll(es)
    decreases es
  {
    match es
    case Nil =>
    case Cons(e, rest) =>
      WholeExactly(e);
      WholeSum(Sum(sum, Lower(e)), rest);
  }

  lemma {:induction false} WholePairs(ps: Pairs)
    requires SpelledPairs(ps)
    ensures WholeFields(LowerPairs(ps)) <==> WritablePairs(ps)
    decreases ps
  {
    match ps
    case NoPairs =>
    case Pair(_, _, value, rest) =>
      WholeExactly(value);
      WholePairs(rest);
    case Lone(_, _, rest) =>
      WholeChoice(Anything());
      WholePairs(rest);
  }

  // ----- an access, checked -----

  lemma UnknownKept<T>(c: Checking<T>)
    ensures Value(c, Anything()) == Unknown(c)
  {
    assert Value(c, Raw("0")) == c.raw("0");
  }

  lemma PerhapsKept<T>(c: Checking<T>, t: Ts)
    ensures Value(c, Perhaps(t)) == OrUndefined(c, Value(c, t))
  {
    UnknownKept(c);
    assert Value(c, Raw("undefined")) == c.raw("undefined");
  }

  lemma NameKept<T>(c: Checking<T>, name: Text)
    ensures Value(c, This(name)) == c.property(c.raw("this"), name)
    ensures forall v: T :: Receiver(c, Plain, v) == v && Receiver(c, NonNull, v) == c.asserted(v)
  {
    assert Value(c, Raw("this")) == c.raw("this");
  }

  lemma KeyedKept<T>(c: Checking<T>, access: Access, o: Ts, key: Ts)
    ensures Value(c, LowerKeyed(access, o, key)) ==
            Outcome(c, access, c.element(Receiver(c, access, Value(c, o)), Value(c, key)))
  {
    PerhapsKept(c, Element(Asserted(o), key));
  }

  lemma MemberKept<T>(c: Checking<T>, access: Access, o: Ts, name: Text)
    ensures Value(c, LowerMember(access, o, name)) ==
            Outcome(c, access, c.property(Receiver(c, access, Value(c, o)), name))
  {
    PerhapsKept(c, Property(Asserted(o), name));
  }

  /** A function called through `!.` is read through a property without a name first. */
  lemma CallKept<T>(c: Checking<T>, access: Access, f: Ts, args: Items)
    ensures Value(c, LowerCall(access, f, args)) ==
            (var v := Receiver(c, access, Value(c, f));
             Outcome(c, access, c.applied(if access.NonNull? then c.property(v, "") else v, ValueItems(c, args))))
  {
    PerhapsKept(c, Applied(Asserted(f), args));
  }

  /** What is written is TypeScript exactly when no function is called through `!.` and no
      template string is empty; then checking it says what checking the template's
      expression says, however checking works. */
  lemma CheckedAsMeant<T>(c: Checking<T>, e: Expr)
    requires Spelled(e)
    ensures Code(e) == Print(Lower(e)) && (Whole(Lower(e)) <==> Writable(e))
    ensures Writable(e) ==> Value(c, Lower(e)) == Meaning(c, e)
  {
    CodeIsPrinted(e);
    WholeExactly(e);
    if Writable(e) {
      MeaningKept(c, e);
    }
  }

  lemma {:induction false} MeaningKept<T>(c: Checking<T>, e: Expr)
    requires Writable(e)
    ensures Value(c, Lower(e)) == Meaning(c, e)
    decreases e
  {
    hide LowerKeyed, LowerMember, LowerCall, Outcome, Receiver;
    match e
    case Token(_, _) =>
    case Identifier(name, _, _) => NameKept(c, name);
    case Unary(_, _, value) => MeaningKept(c, value);
    case Binary(l, _, _, r) =>
      MeaningKept(c, l);
      MeaningKept(c, r);
    case Conditional(x, y, z) =>
      MeaningKept(c, x);
      MeaningKept(c, y);
      MeaningKept(c, z);
    case Group(inner) => MeaningKept(c, inner);
    case Template(elements) => SumKept(c, Raw("''"), elements);
    case Keyed(access, o, key) =>
      MeaningKept(c, o);
      MeaningKept(c, key);
      KeyedKept(c, access, Lower(o), Lower(key));
    case Member(access, o, name, _) =>
      MeaningKept(c, o);
      MemberKept(c, access, Lower(o), name);
    case Write(target, value) =>
      MeaningKept(c, target);
      MeaningKept(c, value);
    case Object(pairs) => PairsKept(c, pairs);
    case Call(access, f, _, args) =>
      MeaningKept(c, f);
      AllKept(c, args);
      CallKept(c, access, Lower(f), LowerAll(args));
    case AnyCast(arg) => MeaningKept(c, arg);
    case Array(_, elements) => AllKept(c, elements);
  }

  lemma {:induction false} AllKept<T>(c: Checking<T>, es: Exprs)
    requires WritableAll(es)
    ensures ValueItems(c, LowerAll(es)) == MeaningOfAll(c, es)
    decreases es
  {
    match es
    case Nil =>
    case Cons(e, rest) =>
      MeaningKept(c, e);
      AllKept(c, rest);
  }

  lemma {:induction false} SumKept<T>(c: Checking<T>, sum: Ts, es: Exprs)
    requires WritableAll(es)
    ensures Value(c, LowerElements(sum, es)) == MeaningOfSum(c, Value(c, sum), es)
    decreases es
  {
    match es
    case Nil =>
    case Cons(e, rest) =>
      MeaningKept(c, e);
      SumKept(c, Sum(sum, Lower(e)), rest);
  }

  lemma {:induction false} PairsKept<T>(c: Checking<T>, ps: Pairs)
    requires WritablePairs(ps)
    ensures ValueFields(c, LowerPairs(ps)) == MeaningOfPairs(c, ps)
    decreases ps
  {
    match ps
    case NoPairs =>
    case Pair(_, _, value, rest) =>
      MeaningKept(c, value);
      PairsKept(c, rest);
    case Lone(_, _, rest) =>
      UnknownKept(c);
      PairsKept(c, rest);
  }
}
