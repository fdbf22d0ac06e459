/** Usages of a class's members, kept in the classes it extends. */
module Usages {

  datatype Access = Unset | NoAccess | ConstructorAccess | LocalAccess | TemplateAccess

  function Precedence(a: Access): nat {
    match a
    case Unset => 0
    case NoAccess => 0
    case ConstructorAccess => 1
    case LocalAccess => 2
    case TemplateAccess => 3
  }

  /** How something that is used can be used. */
  type UsedAccess = a: Access | Precedence(a) > 0 witness ConstructorAccess

  function CalculateNewAccessType(new_: Access, old_: Access): Access {
    if Precedence(new_) > Precedence(old_) then new_ else old_
  }

  datatype UsageInstance = UsageInstance(access: UsedAccess, class_: Class, node: nat)

  datatype Definition = Definition(usageAccess: Access, usages: seq<UsageInstance>)

  type Name = string

  // ----- what happens to definitions -----

  function MaxAccess(a: Access, us: seq<UsageInstance>): Access
    decreases |us|
  {
    if us == [] then a else CalculateNewAccessType(MaxAccess(a, us[..|us| - 1]), us[|us| - 1].access)
  }

  function Append(d: Definition, us: seq<UsageInstance>): Definition {
    Definition(MaxAccess(d.usageAccess, us), d.usages + us)
  }

  function Without(us: seq<UsageInstance>, from: Class): seq<UsageInstance>
    decreases |us|
  {
    if us == [] then []
    else
      var front := Without(us[..|us| - 1], from);
      if us[|us| - 1].class_ == from then front else front + [us[|us| - 1]]
  }

  function Repeat(us: seq<UsageInstance>, k: nat): seq<UsageInstance> {
    if k == 0 then [] else Repeat(us, k - 1) + us
  }

  /** No usage of class `from` is left. */
  function Purged(ds: map<Name, Definition>, from: Class): map<Name, Definition> {
    map n | n in ds :: ds[n].(usages := Without(ds[n].usages, from))
  }

  function UsagesOf(used: map<Name, seq<UsageInstance>>, n: Name): seq<UsageInstance> {
    if n in used then used[n] else []
  }

  /** The usages of every name, added `k` times. */
  function Spread(ds: map<Name, Definition>, used: map<Name, seq<UsageInstance>>, k: nat): map<Name, Definition> {
    map n | n in ds :: Append(ds[n], Repeat(UsagesOf(used, n), k))
  }

  lemma {:induction false} MaxAccessJoin(a: Access, us: seq<UsageInstance>, vs: seq<UsageInstance>)
    ensures MaxAccess(a, us + vs) == MaxAccess(MaxAccess(a, us), vs)
    decreases |vs|
  {
    if vs == [] {
      assert us + vs == us;
    } else {
      assert (us + vs)[..|us + vs| - 1] == us + vs[..|vs| - 1];
      MaxAccessJoin(a, us, vs[..|vs| - 1]);
    }
  }

  lemma {:induction false} WithoutJoin(us: seq<UsageInstance>, vs: seq<UsageInstance>, from: Class)
    ensures Without(us + vs, from) == Without(us, from) + Without(vs, from)
    decreases |vs|
  {
    if vs == [] {
      assert us + vs == us;
    } else {
      assert (us + vs)[..|us + vs| - 1] == us + vs[..|vs| - 1];
      WithoutJoin(us, vs[..|vs| - 1], from);
    }
  }

  lemma {:induction false} WithoutTwice(us: seq<UsageInstance>, c: Class, d: Class)
    ensures Without(Without(us, c), d) == Without(Without(us, d), c)
    ensures c == d ==> Without(Without(us, c), d) == Without(us, c)
    decreases |us|
  {
    if us != [] {
      var front, u := us[..|us| - 1], us[|us| - 1];
      WithoutTwice(front, c, d);
      WithoutJoin(Without(front, c), [u], d);
      WithoutJoin(Without(front, d), [u], c);
      WithoutJoin([], [u], c);
      WithoutJoin([], [u], d);
    }
  }

  lemma PurgedTwice(ds: map<Name, Definition>, from: Class)
    ensures Purged(Purged(ds, from), from) == Purged(ds, from)
  {
    forall n | n in ds
      ensures Purged(Purged(ds, from), from)[n] == Purged(ds, from)[n]
    {
      WithoutTwice(ds[n].usages, from, from);
    }
  }

  lemma SpreadNothing(ds: map<Name, Definition>, used: map<Name, seq<UsageInstance>>)
    ensures Spread(ds, used, 0) == ds
  {
    forall n | n in ds
      ensures Spread(ds, used, 0)[n] == ds[n]
    {
      assert ds[n].usages + [] == ds[n].usages;
    }
  }

  lemma {:induction false} RepeatOne(us: seq<UsageInstance>, k: nat)
    ensures Repeat(us, 1) == us && Repeat(us, k + 1) == Repeat(us, k) + us
  {
    assert Repeat(us, 0) + us == us;
  }

  lemma {:induction false} RepeatJoin(us: seq<UsageInstance>, k: nat, m: nat)
    ensures Repeat(us, k + m) == Repeat(us, k) + Repeat(us, m)
  {
    if m != 0 {
      RepeatJoin(us, k, m - 1);
    }
  }

  lemma SpreadMore(ds: map<Name, Definition>, used: map<Name, seq<UsageInstance>>, k: nat, m: nat)
    ensures Spread(Spread(ds, used, k), used, m) == Spread(ds, used, k + m)
  {
    hide MaxAccess, Repeat;
    forall n | n in ds
      ensures Spread(Spread(ds, used, k), used, m)[n] == Spread(ds, used, k + m)[n]
    {
      var us := UsagesOf(used, n);
      RepeatJoin(us, k, m);
      MaxAccessJoin(ds[n].usageAccess, Repeat(us, k), Repeat(us, m));
      assert ds[n].usages + Repeat(us, k) + Repeat(us, m) == ds[n].usages + Repeat(us, k + m);
    }
  }

  // ----- classes -----

  /** No class extends itself, directly or not: ranks fall along `Extends`. */
  ghost predicate Ranked(c: Class)
    decreases c.rank
  {
    forall e <- c.Extends :: e.rank < c.rank && Ranked(e)
  }

  /** The ancestors reached through the first `k` classes that `c` extends. */
  ghost function AncestorsVia(c: Class, k: nat): set<Class>
    requires Ranked(c) && k <= |c.Extends|
    decreases c.rank, k
  {
    if k == 0 then {} else
      var e := c.Extends[k - 1];
      AncestorsVia(c, k - 1) + {e} + AncestorsVia(e, |e.Extends|)
  }

  ghost function Ancestors(c: Class): set<Class>
    requires Ranked(c)
  {
    AncestorsVia(c, |c.Extends|)
  }

  /** How many ways lead from `c` to its ancestor `a`. */
  ghost function PathsVia(c: Class, a: Class, k: nat): nat
    requires Ranked(c) && k <= |c.Extends|
    decreases c.rank, k
  {
    if k == 0 then 0 else
      var e := c.Extends[k - 1];
      PathsVia(c, a, k - 1) + (if e == a then 1 else 0) + PathsVia(e, a, |e.Extends|)
  }

  ghost function Paths(c: Class, a: Class): nat
    requires Ranked(c)
  {
    PathsVia(c, a, |c.Extends|)
  }

  lemma {:induction false} AncestorsHavePaths(c: Class, a: Class, k: nat)
    requires Ranked(c) && k <= |c.Extends|
    ensures a in AncestorsVia(c, k) <==> PathsVia(c, a, k) > 0
    decreases c.rank, k
  {
    if k > 0 {
      AncestorsHavePaths(c, a, k - 1);
      var e := c.Extends[k - 1];
      AncestorsHavePaths(e, a, |e.Extends|);
    }
  }

  lemma {:induction false} AncestorsRank(c: Class, k: nat)
    requires Ranked(c) && k <= |c.Extends|
    ensures forall a <- AncestorsVia(c, k) :: a.rank < c.rank
    decreases c.rank, k
  {
    if k > 0 {
      AncestorsRank(c, k - 1);
      var e := c.Extends[k - 1];
      AncestorsRank(e, |e.Extends|);
    }
  }

  lemma {:induction false} AncestorsGrow(c: Class, k: nat, m: nat)
    requires Ranked(c) && k <= m <= |c.Extends|
    ensures AncestorsVia(c, k) <= AncestorsVia(c, m)
    decreases m - k
  {
    if k < m {
      AncestorsGrow(c, k, m - 1);
    }
  }

  lemma NoAncestors(c: Class)
    requires Ranked(c)
    ensures AncestorsVia(c, 0) == {}
  {
  }

  /** One more extended class. */
  lemma AncestorsStep(c: Class, k: nat)
    requires Ranked(c) && k < |c.Extends|
    ensures var e := c.Extends[k];
            && Ranked(e) && e.rank < c.rank && e !in Ancestors(e)
            && AncestorsVia(c, k + 1) == AncestorsVia(c, k) + {e} + Ancestors(e)
                && AncestorsVia(c, k + 1) <= Ancestors(c)
  {
    AncestorsGrow(c, k + 1, |c.Extends|);
    AncestorsRank(c.Extends[k], |c.Extends[k].Extends|);
  }

  class Class {
    ghost const rank: nat
    /** The resolved classes this one extends. */
    const Extends: seq<Class>
    var Definitions: map<Name, Definition>
    var Usages: map<Name, seq<UsageInstance>>

    constructor (extends_: seq<Class>, ghost rank: nat)
      requires forall e <- extends_ :: e.rank < rank && Ranked(e)
      ensures Ranked(this) && Extends == extends_ && Definitions == map[] && Usages == map[]
    {
      Extends, Definitions, Usages := extends_, map[], map[];
      this.rank := rank;
    }

    method AppendDefinitionUsage(name: Name, usage: UsageInstance)
      modifies this`Definitions
      ensures Definitions ==
              if name in old(Definitions) then old(Definitions)[name := Append(old(Definitions)[name], [usage])]
              else old(Definitions)
    {
      if name !in Definitions {
        return;
      }
      var definition := Definitions[name];
      assert [usage][..0] == [] && MaxAccess(definition.usageAccess, []) == definition.usageAccess;
      Definitions := Definitions[name := Definition(CalculateNewAccessType(definition.usageAccess, usage.access),
          definition.usages + [usage])];
    }

    /** Drops the usages of class `from` from this class's own definitions; the access
        they have been given stays. */
    method RemoveUsages(from: Class)
      modifies this`Definitions
      ensures Definitions == Purged(old(Definitions), from)
    {
      var names := Definitions.Keys;
      while names != {}
        invariant names <= old(Definitions).Keys == Definitions.Keys
        invariant forall n <- names :: Definitions[n] == old(Definitions)[n]
        invariant forall n <- Definitions.Keys - names :: Definitions[n] == Purged(old(Definitions), from)[n]
        decreases |names|
      {
        var name: Name :| name in names;
        var d := Definitions[name];
        var newUsageInstances: seq<UsageInstance> := [];
        assert d.usages[..0] == [];
        for i := 0 to |d.usages|
          invariant newUsageInstances == Without(d.usages[..i], from)
        {
          assert d.usages[..i + 1][..i] == d.usages[..i];
          var instance := d.usages[i];
          if instance.class_ == from {
            continue;
          }
          newUsageInstances := newUsageInstances + [instance];
        }
        assert d.usages[..|d.usages|] == d.usages;
        Definitions := Definitions[name := d.(usages := newUsageInstances)];
        names := names - {name};
      }
    }

    /** Purging this class leads to its old definitions, purged. */
    ghost predicate Pending(was: map<Class, map<Name, Definition>>, from: Class)
      reads this`Definitions
    {
      this in was && Purged(Definitions, from) == Purged(was[this], from)
    }

    ghost predicate Gone(was: map<Class, map<Name, Definition>>, from: Class)
      reads this`Definitions
    {
      this in was && Definitions == Purged(was[this], from)
    }

    lemma GoneIsPending(was: map<Class, map<Name, Definition>>, from: Class)
      requires Gone(was, from)
      ensures Pending(was, from)
    {
      PurgedTwice(was[this], from);
    }

    /** Drops the usages of class `from` all the way up the hierarchy; `was` holds the
        definitions before. */
    method RemoveUsagesFromClassUpwards(from: Class, ghost was: map<Class, map<Name, Definition>>)
      requires Ranked(this) && forall a <- Ancestors(this) :: a.Pending(was, from)
      modifies Ancestors(this)`Definitions
      ensures forall a <- Ancestors(this) :: a.Gone(was, from)
      decreases rank
    {
      hide Purged, AncestorsVia, Ranked;
      NoAncestors(this);
      for k := 0 to |Extends|
        invariant AncestorsVia(this, k) <= Ancestors(this)
        invariant forall a <- AncestorsVia(this, k) :: a.Gone(was, from)
        invariant forall a <- Ancestors(this) :: a.Pending(was, from)
      {
        var e := Extends[k];
        AncestorsStep(this, k);
        e.RemoveOwn(from, was);
        e.RemoveUsagesFromClassUpwards(from, was);
        assert e.Gone(was, from);
        forall a | a in Ancestors(this) && a.Gone(was, from)
          ensures a.Pending(was, from)
        {
          a.GoneIsPending(was, from);
        }
      }
    }

    method RemoveOwn(from: Class, ghost was: map<Class, map<Name, Definition>>)
      requires Pending(was, from)
      modifies this`Definitions
      ensures Gone(was, from) && Pending(was, from)
    {
      hide Purged;
      RemoveUsages(from);
      GoneIsPending(was, from);
    }

    /** Appends the usages of every name to this class's own definitions. */
    method AppendUsages(used: map<Name, seq<UsageInstance>>)
      modifies this`Definitions
      ensures Definitions == Spread(old(Definitions), used, 1)
    {
      var names := used.Keys;
      while names != {}
        invariant names <= used.Keys && Definitions.Keys == old(Definitions).Keys
        invariant forall n <- Definitions :: Definitions[n] ==
                    if n in used && n !in names then Append(old(Definitions)[n], used[n]) else old(Definitions)[n]
        decreases |names|
      {
        var name: Name :| name in names;
        var instances := used[name];
        assert instances[..0] == [];
        ghost var before := Definitions;
        if name in before { AppendNothing(before[name]); }
        for i := 0 to |instances|
          invariant Definitions ==
                    if name in before then before[name := Append(before[name], instances[..i])] else before
        {
          assert instances[..i + 1] == instances[..i] + [instances[i]];
          if name in before { AppendMore(before[name], instances[..i], [instances[i]]); }
          AppendDefinitionUsage(name, instances[i]);
        }
        assert instances[..|instances|] == instances;
        names := names - {name};
      }
      forall n | n in Definitions
        ensures Definitions[n] == Spread(old(Definitions), used, 1)[n]
      {
        RepeatOne(UsagesOf(used, n), 0);
        AppendNothing(old(Definitions)[n]);
      }
    }

    /** This class's definitions are those of `was` with the usages added `m` times. */
    ghost predicate Carries(was: map<Class, map<Name, Definition>>, used: map<Name, seq<UsageInstance>>, m: nat)
      reads this`Definitions
    {
      this in was && Definitions == Spread(was[this], used, m)
    }

    /** Adds usages all the way up the hierarchy, once for every way up. */
    method PropagateUsagesUpwards(used: map<Name, seq<UsageInstance>>, ghost was: map<Class, map<Name, Definition>>)
      requires Ranked(this) && forall a <- Ancestors(this) :: a in was && a.Definitions == was[a]
      modifies Ancestors(this)`Definitions
      ensures forall a <- Ancestors(this) :: a.Carries(was, used, Paths(this, a))
      decreases rank
    {
      hide Spread, AncestorsVia, Ranked, PathsVia;
      StartPaths(this, was, used);
      for k := 0 to |Extends|
        invariant forall a <- Ancestors(this) :: a.Carries(was, used, PathsVia(this, a, k))
      {
        var e := Extends[k];
        AncestorsStep(this, k);
        label L:
        e.AppendUsages(used);
        ghost var now := map a: Class | a in Ancestors(e) :: a.Definitions;
        e.PropagateUsagesUpwards(used, now);
        forall a | a in Ancestors(this)
          ensures a.Carries(was, used, PathsVia(this, a, k + 1))
        {
          PathsStep(this, a, k);
          var m := PathsVia(this, a, k);
          SpreadMore(was[a], used, m, Paths(e, a));
          SpreadMore(was[a], used, m, 1);
          SpreadNothing(was[a], used);
        }
      }
    }

    /** `Postprocess`, with `Extends` resolved: drops what this class has recorded in
        its ancestors and records it again. */
    method Postprocess(ghost was: map<Class, map<Name, Definition>>)
      requires Ranked(this) && forall a <- Ancestors(this) :: a in was && a.Definitions == was[a]
      modifies Ancestors(this)`Definitions
      ensures forall a <- Ancestors(this) :: a.Definitions == Processed(was[a], this, Usages, Paths(this, a))
    {
      hide Spread, Purged;
      RemoveUsagesFromClassUpwards(this, was);
      ghost var now := map a: Class | a in Ancestors(this) :: a.Definitions;
      PropagateUsagesUpwards(Usages, now);
    }
  }

  // ----- postprocessing -----

  /** What postprocessing class `c` makes of the definitions of an ancestor that `k`
      ways lead to. */
  function Processed(ds: map<Name, Definition>, c: Class, used: map<Name, seq<UsageInstance>>, k: nat): map<Name,
      Definition> {
    Spread(Purged(ds, c), used, k)
  }

  /** The usages a class records are its own. */
  predicate Own(used: map<Name, seq<UsageInstance>>, c: Class) {
    forall n <- used :: forall i :: 0 <= i < |used[n]| ==> used[n][i].class_ == c
  }

  lemma {:induction false} WithoutOwn(us: seq<UsageInstance>, c: Class, d: Class)
    requires forall i :: 0 <= i < |us| ==> us[i].class_ == c
    ensures Without(us, d) == if c == d then [] else us
    decreases |us|
  {
    if us != [] {
      WithoutOwn(us[..|us| - 1], c, d);
    }
  }

  lemma {:induction false} RepeatOwn(us: seq<UsageInstance>, c: Class, k: nat)
    requires forall i :: 0 <= i < |us| ==> us[i].class_ == c
    ensures forall i :: 0 <= i < |Repeat(us, k)| ==> Repeat(us, k)[i].class_ == c
  {
    if k != 0 {
      RepeatOwn(us, c, k - 1);
    }
  }

  lemma {:induction false} MaxAccessTwice(a: Access, us: seq<UsageInstance>)
    ensures Precedence(MaxAccess(a, us)) >= Precedence(a)
    ensures forall b: Access :: Precedence(b) >= Precedence(MaxAccess(a, us)) && (Precedence(b) == 0 ==> b == a) ==>
              MaxAccess(b, us) == b
    decreases |us|
  {
    if us != [] {
      MaxAccessTwice(a, us[..|us| - 1]);
    }
  }

  lemma {:induction false} MaxAccessZero(a: Access, us: seq<UsageInstance>)
    ensures Precedence(MaxAccess(a, us)) == 0 ==> us == [] && MaxAccess(a, us) == a
    decreases |us|
  {
  }

  lemma MaxAccessAgain(a: Access, us: seq<UsageInstance>)
    ensures MaxAccess(MaxAccess(a, us), us) == MaxAccess(a, us)
  {
    MaxAccessTwice(a, us);
    MaxAccessZero(a, us);
  }

  lemma {:induction false} MaxAccessOne(a: Access, us: seq<UsageInstance>, u: UsageInstance)
    ensures MaxAccess(CalculateNewAccessType(a, u.access), us) == CalculateNewAccessType(MaxAccess(a, us), u.access)
    decreases |us|
  {
    if us != [] {
      MaxAccessOne(a, us[..|us| - 1], u);
    }
  }

  lemma {:induction false} MaxAccessCommutes(a: Access, us: seq<UsageInstance>, vs: seq<UsageInstance>)
    ensures MaxAccess(MaxAccess(a, us), vs) == MaxAccess(MaxAccess(a, vs), us)
    decreases |vs|
  {
    if vs != [] {
      var front, v := vs[..|vs| - 1], vs[|vs| - 1];
      MaxAccessCommutes(a, us, front);
      MaxAccessOne(MaxAccess(a, front), us, v);
    }
  }

  lemma UsagesOfOwn(used: map<Name, seq<UsageInstance>>, n: Name, c: Class, k: nat)
    requires Own(used, c)
    ensures forall i :: 0 <= i < |Repeat(UsagesOf(used, n), k)| ==> Repeat(UsagesOf(used, n), k)[i].class_ == c
  {
    RepeatOwn(UsagesOf(used, n), c, k);
  }

  /** Postprocessing a class once more changes nothing. */
  lemma PostprocessIdempotent(ds: map<Name, Definition>, c: Class, used: map<Name, seq<UsageInstance>>, k: nat)
    requires Own(used, c)
    ensures Processed(Processed(ds, c, used, k), c, used, k) == Processed(ds, c, used, k)
  {
    var once := Processed(ds, c, used, k);
    forall n | n in ds
      ensures Processed(once, c, used, k)[n] == once[n]
    {
      var us := Repeat(UsagesOf(used, n), k);
      UsagesOfOwn(used, n, c, k);
      WithoutJoin(Without(ds[n].usages, c), us, c);
      WithoutTwice(ds[n].usages, c, c);
      WithoutOwn(us, c, c);
      MaxAccessAgain(ds[n].usageAccess, us);
      assert Without(ds[n].usages, c) + [] == Without(ds[n].usages, c);
    }
  }

  /** The same definitions, up to the order of their usages. */
  predicate Same(a: map<Name, Definition>, b: map<Name, Definition>) {
    a.Keys == b.Keys && forall n <- a ::
        a[n].usageAccess == b[n].usageAccess && multiset(a[n].usages) == multiset(b[n].usages)
  }

  /** The order in which two classes are postprocessed does not matter. */
  lemma PostprocessCommutes(ds: map<Name, Definition>, c1: Class, used1: map<Name, seq<UsageInstance>>, k1: nat,
                            c2: Class, used2: map<Name, seq<UsageInstance>>, k2: nat)
    requires c1 != c2 && Own(used1, c1) && Own(used2, c2)
    ensures Same(Processed(Processed(ds, c1, used1, k1), c2, used2, k2),
            Processed(Processed(ds, c2, used2, k2), c1, used1, k1))
  {
    hide MaxAccess, Repeat, Without;
    forall n | n in ds
      ensures var a := Processed(Processed(ds, c1, used1, k1), c2, used2, k2)[n];
              var b := Processed(Processed(ds, c2, used2, k2), c1, used1, k1)[n];
              a.usageAccess == b.usageAccess && multiset(a.usages) == multiset(b.usages)
    {
      UsagesOfOwn(used1, n, c1, k1);
      UsagesOfOwn(used2, n, c2, k2);
      DefinitionCommutes(ds[n], c1, Repeat(UsagesOf(used1, n), k1), c2, Repeat(UsagesOf(used2, n), k2));
    }
  }

  /** The same for one definition. */
  lemma DefinitionCommutes(d: Definition, c1: Class, us: seq<UsageInstance>, c2: Class, vs: seq<UsageInstance>)
    requires c1 != c2
    requires (forall i :: 0 <= i < |us| ==> us[i].class_ == c1) && forall i :: 0 <= i < |vs| ==> vs[i].class_ == c2
    ensures MaxAccess(MaxAccess(d.usageAccess, us), vs) == MaxAccess(MaxAccess(d.usageAccess, vs), us)
    ensures multiset(Without(Without(d.usages, c1) + us, c2) + vs) ==
            multiset(Without(Without(d.usages, c2) + vs, c1) + us)
  {
    WithoutJoin(Without(d.usages, c1), us, c2);
    WithoutJoin(Without(d.usages, c2), vs, c1);
    WithoutOwn(us, c1, c2);
    WithoutOwn(vs, c2, c1);
    WithoutTwice(d.usages, c1, c2);
    MaxAccessCommutes(d.usageAccess, us, vs);
  }

  /** Some usage has this access. */
  predicate SomeUsed(us: seq<UsageInstance>, a: Access) {
    exists u <- us :: u.access == a
  }

  /** The access of a definition after these usages: used in a template if it was or if
      one of them is, else used locally, else by the constructor, else as before. */
  predicate AccessAfter(old_: Access, us: seq<UsageInstance>, now: Access) {
    if old_ == TemplateAccess || SomeUsed(us, TemplateAccess) then now == TemplateAccess
    else if old_ == LocalAccess || SomeUsed(us, LocalAccess) then now == LocalAccess
    else if old_ == ConstructorAccess || SomeUsed(us, ConstructorAccess) then now == ConstructorAccess
    else now == old_
  }

  lemma {:induction false} AccessIsHighest(a: Access, us: seq<UsageInstance>)
    ensures AccessAfter(a, us, MaxAccess(a, us))
    decreases |us|
  {
    if us != [] {
      var front, u := us[..|us| - 1], us[|us| - 1];
      AccessIsHighest(a, front);
      forall b: Access
        ensures SomeUsed(us, b) <==> SomeUsed(front, b) || u.access == b
      {
        if v :| v in us && v.access == b {
          assert v in front || v == u;
        }
        assert u in us;
      }
    }
  }

  lemma {:induction false} RepeatUses(us: seq<UsageInstance>, k: nat, a: Access)
    ensures SomeUsed(Repeat(us, k), a) <==> k > 0 && SomeUsed(us, a)
  {
    if k > 0 {
      RepeatUses(us, k - 1, a);
      assert Repeat(us, k) == Repeat(us, k - 1) + us;
    }
  }

  /** Afterwards a definition that some way leads to has the highest access of all its
      usages and of what it had; the access is never lowered. */
  lemma PostprocessAccess(ds: map<Name, Definition>, c: Class, used: map<Name, seq<UsageInstance>>, k: nat, n: Name)
    requires n in ds
    ensures AccessAfter(ds[n].usageAccess, if k > 0 then UsagesOf(used, n) else [],
                        Processed(ds, c, used, k)[n].usageAccess)
  {
    var us := UsagesOf(used, n);
    AccessIsHighest(ds[n].usageAccess, Repeat(us, k));
    RepeatUses(us, k, TemplateAccess);
    RepeatUses(us, k, LocalAccess);
    RepeatUses(us, k, ConstructorAccess);
  }

  lemma OneMore(k: nat, m: nat)
    ensures k * m + m == (k + 1) * m
  {
  }

  lemma {:induction false} RepeatCount(us: seq<UsageInstance>, k: nat, u: UsageInstance)
    ensures multiset(Repeat(us, k))[u] == k * multiset(us)[u]
  {
    if k != 0 {
      RepeatCount(us, k - 1, u);
      assert multiset(Repeat(us, k - 1) + us) == multiset(Repeat(us, k - 1)) + multiset(us);
      OneMore(k - 1, multiset(us)[u]);
    }
  }

  lemma {:induction false} WithoutCount(us: seq<UsageInstance>, c: Class, u: UsageInstance)
    ensures multiset(Without(us, c))[u] == if u.class_ == c then 0 else multiset(us)[u]
    decreases |us|
  {
    if us != [] {
      assert us == us[..|us| - 1] + [us[|us| - 1]];
      WithoutCount(us[..|us| - 1], c, u);
    }
  }

  /** Afterwards a definition holds each current usage of the class once for every way
      that leads to it, no outdated usage of the class, and all usages of others. */
  lemma PostprocessCounts(ds: map<Name, Definition>, c: Class, used: map<Name, seq<UsageInstance>>, k: nat, n: Name,
      u: UsageInstance)
    requires Own(used, c) && n in ds
    ensures multiset(Processed(ds, c, used, k)[n].usages)[u] ==
            if u.class_ == c then k * multiset(UsagesOf(used, n))[u] else multiset(ds[n].usages)[u]
  {
    var us := Repeat(UsagesOf(used, n), k);
    WithoutCount(ds[n].usages, c, u);
    RepeatCount(UsagesOf(used, n), k, u);
    UsagesOfOwn(used, n, c, k);
    assert multiset(us)[u] > 0 ==> u in us;
  }

  /** Single inheritance: no class on the way up extends two. */
  ghost predicate Chain(c: Class)
    requires Ranked(c)
    decreases c.rank
  {
    |c.Extends| <= 1 && forall e <- c.Extends :: Chain(e)
  }

  lemma {:induction false} ChainHasOneWay(c: Class, a: Class)
    requires Ranked(c) && Chain(c) && a in Ancestors(c)
    ensures Paths(c, a) == 1
    decreases c.rank
  {
    var e := c.Extends[0];
    AncestorsStep(c, 0);
    NoAncestors(c);
    PathsStep(c, a, 0);
    assert PathsVia(c, a, 0) == 0;
    if a in Ancestors(e) {
      ChainHasOneWay(e, a);
    }
  }

  lemma AppendNothing(d: Definition)
    ensures Append(d, []) == d
  {
    assert d.usages + [] == d.usages;
  }

  lemma AppendMore(d: Definition, us: seq<UsageInstance>, vs: seq<UsageInstance>)
    ensures Append(d, us + vs) == Append(Append(d, us), vs)
  {
    MaxAccessJoin(d.usageAccess, us, vs);
    assert d.usages + (us + vs) == d.usages + us + vs;
  }

  lemma StartPaths(c: Class, was: map<Class, map<Name, Definition>>, used: map<Name, seq<UsageInstance>>)
    requires Ranked(c) && forall a <- Ancestors(c) :: a in was && a.Definitions == was[a]
    ensures forall a <- Ancestors(c) :: a.Carries(was, used, PathsVia(c, a, 0))
  {
    forall a | a in Ancestors(c)
      ensures a.Carries(was, used, PathsVia(c, a, 0))
    {
      SpreadNothing(was[a], used);
    }
  }

  lemma PathsStep(c: Class, a: Class, k: nat)
    requires Ranked(c) && k < |c.Extends|
    ensures var e := c.Extends[k];
            && Ranked(e)
            && PathsVia(c, a, k + 1) == PathsVia(c, a, k) + (if e == a then 1 else 0) + Paths(e, a)
            && (a !in Ancestors(e) ==> Paths(e, a) == 0)
  {
    var e := c.Extends[k];
    AncestorsHavePaths(e, a, |e.Extends|);
  }
}
