/** Texts, one character for one byte or rune, and pieces of them at their positions. */
module Texts {

  type Text = string

  /** `t` stands at position `i`. */
  predicate HasAt(s: Text, i: nat, t: Text) {
    i + |t| <= |s| && s[i..i + |t|] == t
  }

  lemma HasAtChar(s: Text, i: nat, t: Text, k: nat)
    requires k < |t|
    ensures HasAt(s, i, t) ==> i + k < |s| && s[i + k] == t[k]
  {
    if HasAt(s, i, t) {
      assert s[i..i + |t|][k] == s[i + k];
    }
  }

  lemma HasBoth(s: Text, i: nat, a: Text, b: Text)
    requires HasAt(s, i, a + b)
    ensures HasAt(s, i, a) && HasAt(s, i + |a|, b)
  {
    var t := s[i..i + |a| + |b|];
    assert s[i..i + |a|] == t[..|a|] == a;
    assert s[i + |a|..i + |a| + |b|] == t[|a|..] == b;
  }

  lemma LastChar(s: Text, i: nat, t: Text)
    requires HasAt(s, i, t) && t != ""
    ensures i + |t| <= |s| && s[i + |t| - 1] == t[|t| - 1] && s[i] == t[0] && s[i..i + |t|] == t
  {
    HasAtChar(s, i, t, |t| - 1);
    HasAtChar(s, i, t, 0);
  }

  /** Joining is associative. */
  lemma Associates<T>(a: seq<T>, b: seq<T>, c: seq<T>)
    ensures a + b + c == a + (b + c)
  {
  }
}
