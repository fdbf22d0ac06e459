/** The automaton that types plain YAML scalars, and the JSON schema it should follow
    (section 10.2.2 of YAML 1.2.2). */
module YamlScalar {
  import opened Texts

  datatype ResultSchema = RS_STR | RS_INT | RS_BOOL | RS_NULL | RS_FLOAT

  const FROZEN := -1

  /** `Abort` is the call of abort() in state 13. */
  datatype Step = Abort | Next(state: int, result: ResultSchema)

  predicate IsBlank(c: char) {
    c == '\r' || c == '\n' || c == ' ' || c == '\0'
  }

  predicate Digit(c: char) {
    '0' <= c <= '9'
  }

  predicate Positive(c: char) {
    '1' <= c <= '9'
  }

  function Freeze(c: char, result: ResultSchema): Step {
    Next(FROZEN, if IsBlank(c) then result else RS_STR)
  }

  /** `adv_sch_stt`. */
  function Advance(state: int, c: char, result: ResultSchema): Step {
    match state
    case -1 => Freeze(c, result)
    case 0 =>
      if c == '-' then Next(1, RS_STR) else if c == '0' then Next(16, RS_INT) else if c == 'f' then Next(2, RS_STR)
      else if c == 'n' then Next(10, RS_STR) else if c == 't' then Next(7, RS_STR)
      else if Positive(c) then Next(17, RS_INT) else Freeze(c, result)
    case 1 => if c == '0' then Next(16, RS_INT) else if Positive(c) then Next(17, RS_INT) else Freeze(c, result)
    case 2 => if c == 'a' then Next(4, RS_STR) else Freeze(c, result)
    case 3 => if c == 'e' then Next(15, RS_BOOL) else Freeze(c, result)
    case 4 => if c == 'l' then Next(8, RS_STR) else Freeze(c, result)
    case 5 => if c == 'l' then Next(14, RS_NULL) else Freeze(c, result)
    case 6 => if c == 'l' then Next(5, RS_STR) else Freeze(c, result)
    case 7 => if c == 'r' then Next(9, RS_STR) else Freeze(c, result)
    case 8 => if c == 's' then Next(3, RS_STR) else Freeze(c, result)
    case 9 => if c == 'u' then Next(3, RS_STR) else Freeze(c, result)
    case 10 => if c == 'u' then Next(6, RS_STR) else Freeze(c, result)
    case 11 =>
      if c == '+' || c == '-' then Next(12, RS_STR) else if Digit(c) then Next(19, RS_FLOAT) else Freeze(c, result)
    case 12 => if Digit(c) then Next(19, RS_FLOAT) else Freeze(c, result)
    case 13 => Abort
    case 14 => Freeze(c, RS_NULL)
    case 15 => Freeze(c, RS_BOOL)
    case 16 =>
      if c == '.' then Next(18, RS_FLOAT) else if c == 'E' || c == 'e' then Next(11, RS_STR) else Freeze(c, RS_INT)
    case 17 =>
      if c == '.' then Next(18, RS_FLOAT) else if c == 'E' || c == 'e' then Next(11, RS_STR)
      else if Digit(c) then Next(17, RS_INT) else Freeze(c, RS_INT)
    case 18 =>
      if c == 'E' || c == 'e' then Next(11, RS_STR) else if Digit(c) then Next(18, RS_FLOAT) else Freeze(c, RS_FLOAT)
    case 19 => if Digit(c) then Next(19, RS_FLOAT) else Freeze(c, RS_FLOAT)
    case _ => Next(FROZEN, RS_STR)
  }

  /** The automaton over a text. */
  function Fold(step: Step, w: Text): Step
    decreases |w|
  {
    if w == "" || step.Abort? then step else Fold(Advance(step.state, w[0], step.result), w[1..])
  }

  const START := Next(0, RS_STR)

  // ----- the schema -----

  predicate AllDigits(w: Text) {
    forall i :: 0 <= i < |w| ==> Digit(w[i])
  }

  /** 0 | [1-9] [0-9]* */
  predicate IsNatural(w: Text) {
    w == "0" || (w != "" && Positive(w[0]) && AllDigits(w))
  }

  /** -? ( 0 | [1-9] [0-9]* ) */
  predicate IsInteger(w: Text) {
    IsNatural(w) || (w != "" && w[0] == '-' && IsNatural(w[1..]))
  }

  /** ( \. [0-9]* )? */
  predicate IsFraction(w: Text) {
    w == "" || (w[0] == '.' && AllDigits(w[1..]))
  }

  /** ( [eE] [-+]? [0-9]+ )? */
  predicate IsExponent(w: Text) {
    w == "" || ((w[0] == 'e' || w[0] == 'E') && IsPower(w[1..]))
  }

  predicate IsPower(w: Text) {
    (w != "" && AllDigits(w)) || (|w| > 1 && (w[0] == '-' || w[0] == '+') && AllDigits(w[1..]))
  }

  ghost predicate IsFloat(w: Text) {
    exists a: Text, b: Text, c: Text :: w == a + b + c && IsInteger(a) && IsFraction(b) && IsExponent(c)
  }

  /** The tag the schema resolves a plain scalar to; what it rejects is a string here. */
  ghost function Schema(w: Text): ResultSchema {
    if w == "null" then RS_NULL
    else if w == "true" || w == "false" then RS_BOOL
    else if IsInteger(w) then RS_INT
    else if IsFloat(w) then RS_FLOAT
    else RS_STR
  }

  // ----- the automaton follows the schema -----

  predicate Word(w: Text) {
    forall i :: 0 <= i < |w| ==> !IsBlank(w[i])
  }

  lemma {:induction false} FoldJoin(step: Step, v: Text, w: Text)
    ensures Fold(step, v + w) == Fold(Fold(step, v), w)
    decreases |v|
  {
    if v == "" {
      assert v + w == w;
    } else if step.Next? {
      assert (v + w)[1..] == v[1..] + w;
      FoldJoin(Advance(step.state, v[0], step.result), v[1..], w);
    }
  }

  lemma FoldOne(step: Step, v: Text, c: char)
    ensures Fold(step, v + [c]) ==
            if Fold(step, v).Abort? then Abort else Advance(Fold(step, v).state, c, Fold(step, v).result)
  {
    FoldJoin(step, v, [c]);
    var f := Fold(step, v);
    if f.Next? {
      assert [c][1..] == "";
      assert Fold(f, [c]) == Fold(Advance(f.state, c, f.result), "");
    }
  }

  lemma {:induction false} Digits(state: int, w: Text, result: ResultSchema)
    requires AllDigits(w) && state in {17, 18, 19} && result == if state == 17 then RS_INT else RS_FLOAT
    ensures Fold(Next(state, result), w) == Next(state, result)
    decreases |w|
  {
    if w != "" {
      Digits(state, w[1..], result);
    }
  }

  lemma NaturalFolds(state: int, w: Text)
    requires IsNatural(w) && (state == 0 || state == 1)
    ensures Fold(Next(state, RS_STR), w) == Next(if w[0] == '0' then 16 else 17, RS_INT)
  {
    if w[0] == '0' {
      assert w[1..] == "";
    } else {
      Digits(17, w[1..], RS_INT);
    }
  }

  lemma IntegerFolds(w: Text)
    requires IsInteger(w)
    ensures var f := Fold(START, w); f.Next? && f.state in {16, 17} && f.result == RS_INT
  {
    if IsNatural(w) {
      NaturalFolds(0, w);
    } else {
      NaturalFolds(1, w[1..]);
    }
  }

  lemma FractionFolds(step: Step, b: Text)
    requires step.Next? && step.state in {16, 17} && step.result == RS_INT && IsFraction(b)
    ensures Fold(step, b) == if b == "" then step else Next(18, RS_FLOAT)
  {
    if b != "" {
      Digits(18, b[1..], RS_FLOAT);
    }
  }

  lemma ExponentFolds(step: Step, c: Text)
    requires step.Next? && step.state in {16, 17, 18} && IsExponent(c)
    ensures Fold(step, c) == if c == "" then step else Next(19, RS_FLOAT)
  {
    if c != "" {
      var p := c[1..];
      if AllDigits(p) {
        Digits(19, p[1..], RS_FLOAT);
      } else {
        assert Fold(step, c) == Fold(Next(11, RS_STR), p);
        assert Fold(Next(11, RS_STR), p) == Fold(Next(12, RS_STR), p[1..]);
        Digits(19, p[1..][1..], RS_FLOAT);
      }
    }
  }

  /** Words of the schema reach an accepting state. */
  lemma FloatFolds(w: Text)
    requires IsFloat(w)
    ensures var f := Fold(START, w); f.Next? && f.state in {16, 17, 18, 19}
  {
    var a: Text, b: Text, c: Text :| w == a + b + c && IsInteger(a) && IsFraction(b) && IsExponent(c);
    IntegerFolds(a);
    FoldJoin(START, a, b);
    FractionFolds(Fold(START, a), b);
    FoldJoin(START, a + b, c);
    ExponentFolds(Fold(START, a + b), c);
  }

  /** What the words that lead to a state look like. */
  ghost predicate Language(state: int, w: Text) {
    match state
    case -1 => true
    case 0 => w == ""
    case 1 => w == "-"
    case 2 => w == "f"
    case 3 => w == "fals" || w == "tru"
    case 4 => w == "fa"
    case 5 => w == "nul"
    case 6 => w == "nu"
    case 7 => w == "t"
    case 8 => w == "fal"
    case 9 => w == "tr"
    case 10 => w == "n"
    case 11 => exists m: Text, e: Text :: w == m + e && IsMantissa(m) && IsMark(e)
    case 12 => exists m: Text, e: Text :: w == m + e && IsMantissa(m) && IsSignedMark(e)
    case 14 => w == "null"
    case 15 => w == "true" || w == "false"
    case 16 => w == "0" || w == "-0"
    case 17 => IsInteger(w) && w[|w| - 1] != '-' && w != "0" && w != "-0"
    case 18 => HasPoint(w)
    case 19 => HasPower(w)
    case _ => false
  }

  /** An integer and a fraction. */
  ghost predicate HasPoint(w: Text) {
    exists a: Text, b: Text :: w == a + b && IsInteger(a) && IsFraction(b) && b != ""
  }

  ghost predicate IsMantissa(w: Text) {
    IsInteger(w) || HasPoint(w)
  }

  predicate IsMark(e: Text) {
    e == "e" || e == "E"
  }

  predicate IsSignedMark(e: Text) {
    |e| == 2 && IsMark(e[..1]) && (e[1] == '-' || e[1] == '+')
  }

  /** A mantissa and an exponent. */
  ghost predicate HasPower(w: Text) {
    exists m: Text, c: Text :: w == m + c && IsMantissa(m) && IsExponent(c) && c != ""
  }

  /** The tag a word has when it ends in a state. */
  function TagOf(state: int): ResultSchema {
    if state == 14 then RS_NULL else if state == 15 then RS_BOOL else if state == 16 || state == 17 then RS_INT
    else if state == 18 || state == 19 then RS_FLOAT else RS_STR
  }

  ghost predicate Described(step: Step, w: Text) {
    step.Next? && Language(step.state, w) && step.result == TagOf(step.state)
  }

  lemma KeywordStep(state: int, w: Text, c: char)
    requires (state == -1 || 2 <= state <= 10 || state == 14 || state == 15) && Language(state, w) && !IsBlank(c)
    ensures Described(Advance(state, c, TagOf(state)), w + [c])
  {
    hide IsInteger, HasPoint, HasPower, IsMantissa;
  }

  lemma FirstStep(state: int, w: Text, c: char)
    requires (state == 0 || state == 1) && Language(state, w) && !IsBlank(c)
    ensures Described(Advance(state, c, TagOf(state)), w + [c])
  {
    hide HasPoint, HasPower, IsMantissa;
    if state == 0 {
      assert w + [c] == [c];
    } else {
      assert (w + [c])[1..] == [c];
    }
  }

  lemma IntegerGrows(w: Text, c: char)
    requires Language(17, w) && Digit(c)
    ensures Language(17, w + [c])
  {
    if w[0] == '-' {
      assert (w + [c])[1..] == w[1..] + [c];
    }
  }

  lemma MarkFollows(state: int, w: Text, c: char)
    requires state in {16, 17, 18} && Language(state, w) && IsMark([c])
    ensures Language(11, w + [c])
  {
    assert IsMantissa(w);
  }

  lemma IntegerStep(state: int, w: Text, c: char)
    requires (state == 16 || state == 17) && Language(state, w) && !IsBlank(c)
    ensures Described(Advance(state, c, TagOf(state)), w + [c])
  {
    hide HasPower;
    if c == '.' {
      assert w + [c] == w + "." && IsInteger(w) && IsFraction(".");
      assert HasPoint(w + [c]);
    } else if c == 'E' || c == 'e' {
      MarkFollows(state, w, c);
    } else if state == 17 && Digit(c) {
      IntegerGrows(w, c);
    }
  }

  lemma PointStep(w: Text, c: char)
    requires HasPoint(w) && !IsBlank(c)
    ensures Described(Advance(18, c, RS_FLOAT), w + [c])
  {
    if c == 'E' || c == 'e' {
      MarkFollows(18, w, c);
    } else if Digit(c) {
      var a: Text, b: Text :| w == a + b && IsInteger(a) && IsFraction(b) && b != "";
      assert w + [c] == a + (b + [c]) && (b + [c])[1..] == b[1..] + [c];
      assert HasPoint(w + [c]);
    }
  }

  lemma MarkStep(w: Text, c: char)
    requires Language(11, w) && !IsBlank(c)
    ensures Described(Advance(11, c, RS_STR), w + [c])
  {
    var m: Text, e: Text :| w == m + e && IsMantissa(m) && IsMark(e);
    assert w + [c] == m + (e + [c]);
    if c == '+' || c == '-' {
      assert (e + [c])[..1] == e;
      assert IsSignedMark(e + [c]);
    } else if Digit(c) {
      assert (e + [c])[1..] == [c];
      assert IsExponent(e + [c]);
      assert HasPower(w + [c]);
    }
  }

  lemma SignStep(w: Text, c: char)
    requires Language(12, w) && !IsBlank(c)
    ensures Described(Advance(12, c, RS_STR), w + [c])
  {
    if Digit(c) {
      var m: Text, e: Text :| w == m + e && IsMantissa(m) && IsSignedMark(e);
      var f := e + [c];
      assert w + [c] == m + f && f[1..] == [e[1], c] && f[1..][1..] == [c] && f[0] == e[..1][0];
      assert IsPower(f[1..]) && IsExponent(f);
      assert HasPower(w + [c]);
    }
  }

  lemma PowerStep(w: Text, c: char)
    requires HasPower(w) && !IsBlank(c)
    ensures Described(Advance(19, c, RS_FLOAT), w + [c])
  {
    if Digit(c) {
      var m: Text, e: Text :| w == m + e && IsMantissa(m) && IsExponent(e) && e != "";
      var f := e + [c];
      assert w + [c] == m + f && f[1..] == e[1..] + [c];
      if !AllDigits(e[1..]) {
        assert f[1..][1..] == e[1..][1..] + [c];
      }
      assert IsExponent(f);
      assert HasPower(w + [c]);
    }
  }

  lemma StepDescribes(step: Step, w: Text, c: char)
    requires Described(step, w) && !IsBlank(c)
    ensures Described(Advance(step.state, c, step.result), w + [c])
  {
    hide HasPoint, HasPower, IsMantissa, IsMark, IsSignedMark, Advance;
    match step.state
    case 0 => FirstStep(0, w, c);
    case 1 => FirstStep(1, w, c);
    case 11 => MarkStep(w, c);
    case 12 => SignStep(w, c);
    case 16 => IntegerStep(16, w, c);
    case 17 => IntegerStep(17, w, c);
    case 18 => PointStep(w, c);
    case 19 => PowerStep(w, c);
    case _ => KeywordStep(step.state, w, c);
  }

  /** Every word leads to a state that describes it; the aborting state is never reached. */
  lemma {:induction false} FoldDescribes(w: Text)
    requires Word(w)
    ensures Described(Fold(START, w), w)
    decreases |w|
  {
    hide Language, Advance;
    if w == "" {
      assert Language(0, "") by { EmptyIsDescribed(); }
    } else {
      var k := |w| - 1;
      assert w == w[..k] + [w[k]];
      FoldDescribes(w[..k]);
      StepDescribes(Fold(START, w[..k]), w[..k], w[k]);
      FoldOne(START, w[..k], w[k]);
    }
  }

  lemma EmptyIsDescribed()
    ensures Language(0, "")
  {
  }

  lemma PowersAreFloats(w: Text)
    requires IsMantissa(w) || HasPower(w)
    ensures IsFloat(w)
  {
    if IsMantissa(w) {
      MantissaIsFloat(w, "");
      assert w + "" == w;
    } else {
      var m: Text, c: Text :| w == m + c && IsMantissa(m) && IsExponent(c) && c != "";
      MantissaIsFloat(m, c);
    }
  }

  lemma MantissaIsFloat(m: Text, c: Text)
    requires IsMantissa(m) && IsExponent(c)
    ensures IsFloat(m + c)
  {
    if IsInteger(m) {
      assert m + c == m + "" + c && IsFraction("");
    } else {
      var a: Text, b: Text :| m == a + b && IsInteger(a) && IsFraction(b) && b != "";
      assert m + c == a + b + c;
    }
  }

  lemma KeywordsFold(w: Text)
    requires w == "null" || w == "true" || w == "false"
    ensures Fold(START, w) == if w == "null" then Next(14, RS_NULL) else Next(15, RS_BOOL)
  {
    assert w[1..][1..] == w[2..] && w[2..][1..] == w[3..] && w[3..][1..] == w[4..];
    assert Fold(START, w) == Fold(Advance(0, w[0], RS_STR), w[1..]);
    var one := Advance(0, w[0], RS_STR);
    assert Fold(one, w[1..]) == Fold(Advance(one.state, w[1], RS_STR), w[2..]);
    var two := Advance(one.state, w[1], RS_STR);
    assert Fold(two, w[2..]) == Fold(Advance(two.state, w[2], RS_STR), w[3..]);
    var three := Advance(two.state, w[2], RS_STR);
    assert Fold(three, w[3..]) == Fold(Advance(three.state, w[3], RS_STR), w[4..]);
    if w == "false" {
      assert w[4..] == "e" && "e"[1..] == "";
    }
  }

  /** The automaton gives every word the tag the schema gives it. */
  lemma FollowsSchema(w: Text)
    requires Word(w)
    ensures Fold(START, w).Next? && Fold(START, w).result == Schema(w)
  {
    hide Fold, Advance, IsInteger, IsFloat, HasPoint, HasPower;
    FoldDescribes(w);
    var state := Fold(START, w).state;
    if w == "null" || w == "true" || w == "false" {
      KeywordsFold(w);
    } else if IsInteger(w) {
      IntegerFolds(w);
    } else if IsFloat(w) {
      FloatFolds(w);
      if state == 16 {
        ZeroIsInteger(w);
      }
    } else if state == 16 {
      ZeroIsInteger(w);
    } else if state == 18 || state == 19 {
      PowersAreFloats(w);
    }
  }

  lemma ZeroIsInteger(w: Text)
    requires w == "0" || w == "-0"
    ensures IsInteger(w)
  {
  }

  // ----- a whole line -----

  predicate AllBlank(w: Text) {
    forall i :: 0 <= i < |w| ==> IsBlank(w[i])
  }

  /** The text before the first blank. */
  function FirstWord(t: Text): (w: Text)
    ensures |w| <= |t| && w == t[..|w|] && Word(w) && (|w| < |t| ==> IsBlank(t[|w|]))
  {
    if t == "" || IsBlank(t[0]) then "" else [t[0]] + FirstWord(t[1..])
  }

  lemma {:induction false} FrozenFold(result: ResultSchema, t: Text)
    ensures Fold(Next(FROZEN, result), t) == Next(FROZEN, if AllBlank(t) then result else RS_STR)
    decreases |t|
  {
    if t != "" {
      FrozenFold(if IsBlank(t[0]) then result else RS_STR, t[1..]);
    }
  }

  lemma BlankFreezes(step: Step, w: Text, c: char)
    requires Described(step, w) && IsBlank(c)
    ensures Advance(step.state, c, step.result) == Next(FROZEN, step.result)
  {
    hide HasPoint, HasPower, IsMantissa;
  }

  /** A line is tagged by its first word when only blanks follow, and is a string otherwise. */
  lemma LineFollowsSchema(t: Text)
    ensures var f := Fold(START, t); var w := FirstWord(t);
      f.Next? && f.result == if AllBlank(t[|w|..]) then Schema(w) else RS_STR
  {
    hide Schema, Described, Advance;
    var w := FirstWord(t);
    assert t == w + t[|w|..];
    FoldJoin(START, w, t[|w|..]);
    FollowsSchema(w);
    if |w| < |t| {
      var f := Fold(START, w);
      FoldDescribes(w);
      BlankFreezes(f, w, t[|w|]);
      assert t[|w|..][1..] == t[|w| + 1..];
      FrozenFold(f.result, t[|w| + 1..]);
      assert AllBlank(t[|w|..]) == AllBlank(t[|w| + 1..]) by {
        BlankHead(t[|w|..]);
      }
    }
  }

  lemma BlankHead(t: Text)
    requires t != "" && IsBlank(t[0])
    ensures AllBlank(t) == AllBlank(t[1..])
  {
    assert t == [t[0]] + t[1..];
  }

  // ----- which characters reach the automaton -----

  predicate IsWsp(c: char) {
    c == ' ' || c == '\t'
  }

  predicate IsNsChar(c: char) {
    var n := c as int;
    || 0x21 <= n <= 0x7e || n == 0x85 || 0xa0 <= n <= 0xd7ff || 0xe000 <= n <= 0xfefe || 0xff00 <= n <= 0xfffd
    || 0x10000 <= n <= 0x10ffff
  }

  predicate IsPlainSafe(c: char, inFlow: bool) {
    IsNsChar(c) && !(inFlow && c in ",[]{}")
  }

  /** The lexer sees a NUL at the end of its input. */
  function Lookahead(text: Text, i: nat): char {
    if i < |text| then text[i] else '\0'
  }

  /** The scan takes character `i`: a safe one, a blank, a '#' behind a safe one, or a ':'
      in front of one. */
  predicate Takes(text: Text, i: nat, inFlow: bool)
    requires 0 < i < |text|
  {
    match text[i]
    case '#' => IsPlainSafe(text[i - 1], inFlow)
    case ':' => IsPlainSafe(Lookahead(text, i + 1), inFlow)
    case c => IsPlainSafe(c, inFlow) || IsWsp(c)
  }

  // ----- the character classes of YAML -----

  /** `c-printable`, production 1 of YAML 1.2.2. */
  predicate Printable(c: char) {
    || c in {'\t', '\n', '\r', '\U{85}'}
    || '\U{20}' <= c <= '\U{7E}' || '\U{A0}' <= c <= '\U{D7FF}' || '\U{E000}' <= c <= '\U{FFFD}'
    || '\U{10000}' <= c <= '\U{10FFFF}'
  }

  /** `ns-char`, production 34: printable, and no byte order mark, line break, or white
      space. */
  predicate NonSpace(c: char) {
    Printable(c) && c != '\U{FEFF}' && c !in {'\n', '\r'} && c !in {' ', '\t'}
  }

  /** `c-flow-indicator`, production 23. */
  predicate FlowIndicator(c: char) {
    c in {',', '[', ']', '{', '}'}
  }

  /** `ns-plain-char` or white space, production 130: a safe character but ':' and '#', a
      '#' behind a character that is no space, a ':' in front of a safe one. */
  predicate PlainChar(text: Text, i: nat, inFlow: bool)
    requires 0 < i < |text|
  {
    || (NonSpace(text[i]) && !(inFlow && FlowIndicator(text[i])) && text[i] !in {':', '#'})
    || (text[i] == '#' && NonSpace(text[i - 1]))
    || (text[i] == ':' && i + 1 < |text| && NonSpace(text[i + 1]) && !(inFlow && FlowIndicator(text[i + 1])))
    || text[i] in {' ', '\t'}
  }

  /** The scan takes what YAML lets stand in a plain scalar: behind a flow indicator, in
      a flow, nothing but a '#' is judged differently. */
  lemma TakesPlainChars(text: Text, i: nat, inFlow: bool)
    requires 0 < i < |text|
    ensures Takes(text, i, inFlow) <==>
            PlainChar(text, i, inFlow) && !(inFlow && text[i] == '#' && FlowIndicator(text[i - 1]))
  {
    CharactersAreYaml(text[i]);
    CharactersAreYaml(text[i - 1]);
    if i + 1 < |text| {
      CharactersAreYaml(text[i + 1]);
    }
  }

  lemma CharactersAreYaml(c: char)
    ensures IsNsChar(c) <==> NonSpace(c)
    ensures c in ",[]{}" <==> FlowIndicator(c)
    ensures IsWsp(c) <==> c in {' ', '\t'}
    ensures Digit(c) <==> c in {'0', '1', '2', '3', '4', '5', '6', '7', '8', '9'}
    ensures Positive(c) <==> Digit(c) && c != '0'
    ensures IsBlank(c) <==> c in {' ', '\n', '\r', '\U{0}'}
  {
  }

  /** `Success` has the end of the scan and the end of the token; `Failed` met a ':' that
      ends a key. */
  datatype Scan = Stopped | Success(end: nat, mark: nat, step: Step) | Failed(end: nat, step: Step)

  /** Everything from `at` to `end` is taken, and all of the text up to there has reached
      the automaton. */
  ghost predicate Fed(text: Text, at: nat, end: nat, inFlow: bool, step: Step) {
    && 0 < at <= end <= |text| && step == Fold(START, text[..end])
    && forall i :: at <= i < end ==> Takes(text, i, inFlow)
  }

  lemma NulStops(inFlow: bool)
    ensures !IsPlainSafe('\0', inFlow) && !IsWsp('\0')
  {
  }

  lemma FedMore(text: Text, at: nat, i: nat, inFlow: bool, step: Step)
    requires Fed(text, at, i, inFlow, step) && step.Next? && i < |text| && Takes(text, i, inFlow)
    ensures var more := Advance(step.state, text[i], step.result);
            more.Next? && Fed(text, at, i + 1, inFlow, more)
  {
    hide Takes, Advance, Fold;
    assert text[..i + 1] == text[..i] + [text[i]];
    FoldOne(START, text[..i], text[i]);
    LineFollowsSchema(text[..i + 1]);
  }

  /** `scn_pln_cnt`, behind the first character of a plain scalar. */
  method ContinuePlain(text: Text, at: nat, inFlow: bool, first: Step) returns (r: Scan)
    requires 0 < at <= |text| && first == Fold(START, text[..at])
    ensures r.Stopped? <==> !IsPlainSafe(Lookahead(text, at), inFlow) && !IsWsp(Lookahead(text, at))
    ensures r.Success? ==>
              && Fed(text, at, r.end, inFlow, r.step) && at <= r.mark <= r.end
              && (r.end < |text| ==> text[r.end] != ':' && !Takes(text, r.end, inFlow))
              && (forall i :: r.mark <= i < r.end ==> IsWsp(text[i])) && (r.mark > at ==> !IsWsp(text[r.mark - 1]))
    ensures r.Failed? ==>
              && Fed(text, at, r.end, inFlow, r.step)
              && r.end < |text| && text[r.end] == ':' && !Takes(text, r.end, inFlow)
    ensures r.Success? ==>
              var line := text[..r.end]; var word := FirstWord(line);
              r.step.Next? && r.step.result == if AllBlank(line[|word|..]) then Schema(word) else RS_STR
  {
    hide Fold, Advance, Schema, FirstWord, AllBlank, IsNsChar;
    var safe := IsPlainSafe(Lookahead(text, at), inFlow);
    if !safe && !IsWsp(Lookahead(text, at)) {
      return Stopped;
    }
    var i, mark, step := at, at, first;
    var before := IsPlainSafe(text[at - 1], inFlow);
    LineFollowsSchema(text[..at]);
    NulStops(inFlow);
    while true
      invariant Fed(text, at, i, inFlow, step) && step.Next? && at <= mark <= i
      invariant before == IsPlainSafe(text[i - 1], inFlow) && safe == IsPlainSafe(Lookahead(text, i), inFlow)
      invariant forall k :: mark <= k < i ==> IsWsp(text[k])
      invariant mark > at ==> !IsWsp(text[mark - 1])
      decreases |text| - i
    {
      var c := Lookahead(text, i);
      if !(safe && c != '#' && c != ':') && !(before && c == '#') && !IsWsp(c) && c != ':' {
        LineFollowsSchema(text[..i]);
        return Success(i, mark, step);
      }
      if c == ':' && !IsPlainSafe(Lookahead(text, i + 1), inFlow) {
        return Failed(i, step);
      }
      FedMore(text, at, i, inFlow, step);
      step := Advance(step.state, c, step.result);
      before, safe := safe, IsPlainSafe(Lookahead(text, i + 1), inFlow);
      i := i + 1;
      if !IsWsp(c) {
        mark := i;
      }
    }
  }
}
