/** The tag stack of the template scanner and the bounded buffer it is saved in. */
module TagCodec {
  import opened Options

  type Byte = b: int | 0 <= b < 256

  const CUSTOM: Byte := 128
  const END_: Byte := 129

  const BUFFER_SIZE := 1024
  const HEADER_SIZE := 4

  /** `kind` is the tag type; only custom tags carry a name. */
  datatype Tag = Tag(kind: Byte, name: seq<Byte>)

  const NEW_TAG := Tag(END_, [])

  function Min(a: nat, b: nat): nat {
    if a < b then a else b
  }

  function Zeros(n: nat): (z: seq<Byte>)
    ensures |z| == n && forall i :: 0 <= i < n ==> z[i] == 0
  {
    if n == 0 then [] else [0] + Zeros(n - 1)
  }

  // ----- the format -----

  /** What strncpy leaves: the bytes before the first NUL, then zeros. */
  function Copied(name: seq<Byte>, n: nat): (c: seq<Byte>)
    requires n <= |name|
    ensures |c| == n
  {
    if n == 0 then [] else if name[0] == 0 then Zeros(n) else [name[0]] + Copied(name[1..], n - 1)
  }

  function NameLength(name: seq<Byte>): (n: Byte)
    ensures n <= |name|
  {
    Min(|name|, 255)
  }

  function Piece(tag: Tag): (p: seq<Byte>)
    ensures |p| > 0
  {
    if tag.kind == CUSTOM
    then [CUSTOM, NameLength(tag.name)] + Copied(tag.name, NameLength(tag.name))
    else [tag.kind]
  }

  function Body(tags: seq<Tag>): seq<Byte> {
    if tags == [] then [] else Piece(tags[0]) + Body(tags[1..])
  }

  /** How many tags are written when `size` bytes are used. */
  function Fitting(tags: seq<Tag>, size: nat): (k: nat)
    ensures k <= |tags|
  {
    if tags == [] || size + |Piece(tags[0])| >= BUFFER_SIZE then 0
    else 1 + Fitting(tags[1..], size + |Piece(tags[0])|)
  }

  function Low(n: nat): Byte {
    n % 256
  }

  function High(n: nat): Byte {
    n / 256 % 256
  }

  function Counted(tags: seq<Tag>): seq<Tag> {
    tags[..Min(|tags|, 65535)]
  }

  function Written(tags: seq<Tag>): (w: seq<Tag>) {
    Counted(tags)[..Fitting(Counted(tags), HEADER_SIZE)]
  }

  function Header(written: nat, counted: nat): seq<Byte> {
    [Low(written), High(written), Low(counted), High(counted)]
  }

  function Serialized(tags: seq<Tag>): seq<Byte> {
    Header(|Written(tags)|, |Counted(tags)|) + Body(Written(tags))
  }

  /** The bytes of a count, low byte first. */
  function Number(low: Byte, high: Byte): nat {
    low as nat + 256 * high as nat
  }

  /** One tag and the position after it; None is a read past the end of the bytes. */
  function ReadTag(bytes: seq<Byte>, at: nat): Option<(Tag, nat)> {
    if at >= |bytes| then None
    else if bytes[at] != CUSTOM then Some((Tag(bytes[at], []), at + 1))
    else if at + 1 >= |bytes| || at + 2 + bytes[at + 1] as nat > |bytes| then None
    else
      var end := at + 2 + bytes[at + 1] as nat;
      Some((Tag(CUSTOM, bytes[at + 2..end]), end))
  }

  function ReadTags(bytes: seq<Byte>, at: nat, n: nat): Option<seq<Tag>>
    decreases n
  {
    if n == 0 then Some([])
    else
      match ReadTag(bytes, at) {
        case Some((tag, end)) => Prepended([tag], ReadTags(bytes, end, n - 1))
        case None => None
      }
  }

  function Prepended(tags: seq<Tag>, rest: Option<seq<Tag>>): Option<seq<Tag>> {
    match rest
    case Some(more) => Some(tags + more)
    case None => None
  }

  function NewTags(n: nat): (t: seq<Tag>)
    ensures |t| == n && forall i :: 0 <= i < n ==> t[i] == NEW_TAG
  {
    if n == 0 then [] else [NEW_TAG] + NewTags(n - 1)
  }

  function Sub(a: nat, b: nat): nat {
    if a < b then 0 else a - b
  }

  /** None is a read past the end of the bytes. */
  function Deserialized(bytes: seq<Byte>): Option<seq<Tag>> {
    if bytes == [] then Some([])
    else if |bytes| < HEADER_SIZE then None
    else
      var written := Number(bytes[0], bytes[1]);
      var counted := Number(bytes[2], bytes[3]);
      if counted == 0 then Some([])
      else
        match ReadTags(bytes, HEADER_SIZE, written) {
          case Some(tags) => Some(tags + NewTags(Sub(counted, written)))
          case None => None
        }
  }

  // ----- the scanner -----

  class Scanner {
    var tags: seq<Tag>

    constructor ()
      ensures tags == []
    {
      tags := [];
    }

    method Serialize(buffer: array<Byte>) returns (size: nat)
      requires buffer.Length == BUFFER_SIZE
      modifies buffer
      ensures size < BUFFER_SIZE
      ensures buffer[..size] == Serialized(tags)
      ensures buffer[size..] == old(buffer[size..])
    {
      hide Piece, Fitting, Low, High, Body;
      var counted := Min(|tags|, 65535);
      var written := 0;
      size := 2;
      buffer[size], buffer[size + 1] := Low(counted), High(counted);
      size := size + 2;
      ghost var all := Counted(tags);
      assert Body(all[..0]) == [] by { EmptyBody(); }
      assert all[0..] == all;
      while written < counted
        invariant written <= counted == |all|
        invariant HEADER_SIZE <= size < BUFFER_SIZE
        invariant buffer[2] == Low(counted) && buffer[3] == High(counted)
        invariant buffer[HEADER_SIZE..size] == Body(all[..written])
        invariant buffer[size..] == old(buffer[size..])
        invariant Fitting(all, HEADER_SIZE) == written + Fitting(all[written..], size)
      {
        BodyGrows(all, written);
        FittingStep(all, written, size);
        ghost var was := buffer[..];
        var fits, end := PutTag(buffer, size, tags[written]);
        if !fits {
          break;
        }
        Extended(was, buffer[..], size, end, Piece(tags[written]));
        size := end;
        written := written + 1;
      }
      FittingStep(all, written, size);
      buffer[0], buffer[1] := Low(written), High(written);
      Assembled(buffer[..], size, all, written, tags);
    }

    method Deserialize(buffer: array<Byte>, length: nat) returns (ok: bool)
      requires length <= buffer.Length
      modifies this
      ensures ok == Deserialized(buffer[..length]).Some?
      ensures ok ==> tags == Deserialized(buffer[..length]).value
    {
      ghost var bytes := buffer[..length];
      tags := [];
      ok := true;
      if length > 0 {
        if length < HEADER_SIZE {
          return false;
        }
        var written := Number(buffer[0], buffer[1]);
        var counted := Number(buffer[2], buffer[3]);
        if counted > 0 {
          var size: nat, iter: nat := HEADER_SIZE, 0;
          PrependedNothing(ReadTags(bytes, HEADER_SIZE, written));
          while iter < written
            invariant iter <= written && HEADER_SIZE <= size
            invariant ReadTags(bytes, HEADER_SIZE, written) == Prepended(tags, ReadTags(bytes, size, written - iter))
          {
            var read := TakeTag(buffer, length, size);
            if read.None? {
              return false;
            }
            PrependedOne(tags, read.value.0, ReadTags(bytes, read.value.1, written - iter - 1));
            tags := tags + [read.value.0];
            size := read.value.1;
            iter := iter + 1;
          }
          ghost var kept := tags;
          assert kept + [] == kept;
          while iter < counted
            invariant written <= iter && (counted > written ==> iter <= counted)
            invariant tags + NewTags(Sub(counted, iter)) == kept + NewTags(Sub(counted, written))
          {
            assert (tags + [NEW_TAG]) + NewTags(Sub(counted, iter + 1)) == tags + NewTags(Sub(counted, iter));
            tags := tags + [NEW_TAG];
            iter := iter + 1;
          }
          assert tags + [] == tags;
        }
      }
    }
  }

  lemma EmptyBody()
    ensures Body([]) == []
  {
  }

  lemma Extended(was: seq<Byte>, now: seq<Byte>, size: nat, end: nat, piece: seq<Byte>)
    requires HEADER_SIZE <= size <= end <= |was| == |now| && now[..size] == was[..size] && now[size..end] == piece
    ensures now[HEADER_SIZE..end] == was[HEADER_SIZE..size] + piece
    ensures now[2] == was[2] && now[3] == was[3]
  {
    assert now[HEADER_SIZE..size] == now[..size][HEADER_SIZE..] == was[HEADER_SIZE..size];
    assert now[2] == now[..size][2] && now[3] == now[..size][3];
  }

  lemma Assembled(buffer: seq<Byte>, size: nat, all: seq<Tag>, written: nat, tags: seq<Tag>)
    requires HEADER_SIZE <= size <= |buffer| && all == Counted(tags) && written == Fitting(all, HEADER_SIZE)
    requires buffer[..HEADER_SIZE] == Header(written, |all|) && buffer[HEADER_SIZE..size] == Body(all[..written])
    ensures buffer[..size] == Serialized(tags)
  {
    hide Body, Fitting, Header;
    assert buffer[..size] == buffer[..HEADER_SIZE] + buffer[HEADER_SIZE..size];
    assert all[..written] == Written(tags);
  }

  /** Writes one tag if a byte stays free after it. */
  method PutTag(buffer: array<Byte>, size: nat, tag: Tag) returns (fits: bool, end: nat)
    requires size < buffer.Length == BUFFER_SIZE
    modifies buffer
    ensures fits == (size + |Piece(tag)| < BUFFER_SIZE)
    ensures end == if fits then size + |Piece(tag)| else size
    ensures buffer[size..end] == if fits then Piece(tag) else []
    ensures buffer[..size] == old(buffer[..size]) && buffer[end..] == old(buffer[end..])
  {
    fits, end := false, size;
    if tag.kind == CUSTOM {
      var length := NameLength(tag.name);
      if size + 2 + length >= BUFFER_SIZE {
        return;
      }
      buffer[size] := tag.kind;
      buffer[size + 1] := length;
      StrNCpy(buffer, size + 2, tag.name, length);
      end := size + 2 + length;
      assert forall k :: 0 <= k < end - size ==> buffer[size + k] == Piece(tag)[k];
    } else {
      if size + 1 >= BUFFER_SIZE {
        return;
      }
      buffer[size] := tag.kind;
      end := size + 1;
    }
    assert |Piece(tag)| == end - size && buffer[size..end] == Piece(tag);
    fits := true;
  }

  method TakeTag(buffer: array<Byte>, length: nat, at: nat) returns (read: Option<(Tag, nat)>)
    requires length <= buffer.Length
    ensures read == ReadTag(buffer[..length], at)
  {
    if at >= length {
      return None;
    }
    var tag, size := Tag(buffer[at], []), at + 1;
    if tag.kind == CUSTOM {
      if size >= length || size + 1 + buffer[size] as nat > length {
        return None;
      }
      var nameLength := buffer[size];
      size := size + 1;
      tag := tag.(name := buffer[..length][size..size + nameLength as nat]);
      size := size + nameLength as nat;
    }
    read := Some((tag, size));
  }

  method StrNCpy(buffer: array<Byte>, at: nat, name: seq<Byte>, n: nat)
    requires n <= |name| && at + n <= buffer.Length
    modifies buffer
    ensures forall k :: at <= k < at + n ==> buffer[k] == Copied(name, n)[k - at]
    ensures forall k :: 0 <= k < buffer.Length && !(at <= k < at + n) ==> buffer[k] == old(buffer[k])
  {
    hide Copied;
    var i := 0;
    while i < n && name[i] != 0
      invariant i <= n
      invariant forall k :: 0 <= k < buffer.Length && !(at <= k < at + n) ==> buffer[k] == old(buffer[k])
      invariant forall k :: at <= k < at + i ==> buffer[k] == name[k - at]
      invariant forall k :: 0 <= k < i ==> name[k] != 0
    {
      buffer[at + i] := name[i];
      i := i + 1;
    }
    ghost var stop := i;
    CopiedUntil(name, n, stop);
    while i < n
      invariant stop <= i <= n
      invariant forall k :: 0 <= k < buffer.Length && !(at <= k < at + n) ==> buffer[k] == old(buffer[k])
      invariant forall k :: at <= k < at + stop ==> buffer[k] == name[k - at]
      invariant forall k :: at + stop <= k < at + i ==> buffer[k] == 0
    {
      buffer[at + i] := 0;
      i := i + 1;
    }
  }

  lemma {:induction false} CopiedUntil(name: seq<Byte>, n: nat, stop: nat)
    requires stop <= n <= |name| && (forall k :: 0 <= k < stop ==> name[k] != 0) && (stop < n ==> name[stop] == 0)
    ensures forall k :: 0 <= k < n ==> Copied(name, n)[k] == if k < stop then name[k] else 0
  {
    if 0 < stop {
      CopiedUntil(name[1..], n - 1, stop - 1);
    }
  }

  lemma FittingStep(tags: seq<Tag>, i: nat, size: nat)
    requires i <= |tags|
    ensures Fitting(tags[i..], size)
         == if i == |tags| || size + |Piece(tags[i])| >= BUFFER_SIZE then 0
            else 1 + Fitting(tags[i + 1..], size + |Piece(tags[i])|)
  {
    if i < |tags| {
      assert tags[i..][1..] == tags[i + 1..];
    }
  }

  lemma {:induction false} BodyJoin(a: seq<Tag>, b: seq<Tag>)
    ensures Body(a + b) == Body(a) + Body(b)
  {
    if a == [] {
      assert a + b == b;
    } else {
      assert (a + b)[1..] == a[1..] + b;
      BodyJoin(a[1..], b);
    }
  }

  lemma BodyGrows(tags: seq<Tag>, i: nat)
    requires i < |tags|
    ensures Body(tags[..i + 1]) == Body(tags[..i]) + Piece(tags[i])
  {
    assert tags[..i + 1] == tags[..i] + [tags[i]];
    BodyJoin(tags[..i], [tags[i]]);
    assert Body([tags[i]]) == Piece(tags[i]);
  }

  lemma PrependedNothing(rest: Option<seq<Tag>>)
    ensures Prepended([], rest) == rest
  {
    if rest.Some? {
      assert [] + rest.value == rest.value;
    }
  }

  lemma PrependedOne(tags: seq<Tag>, tag: Tag, rest: Option<seq<Tag>>)
    ensures Prepended(tags + [tag], rest) == Prepended(tags, Prepended([tag], rest))
  {
    if rest.Some? {
      assert (tags + [tag]) + rest.value == tags + ([tag] + rest.value);
    }
  }

  // ----- what a saved stack restores -----

  /** A tag as it comes back. */
  function Kept(tag: Tag): Tag {
    if tag.kind == CUSTOM then Tag(CUSTOM, Copied(tag.name, NameLength(tag.name))) else Tag(tag.kind, [])
  }

  function KeptAll(tags: seq<Tag>): (k: seq<Tag>)
    ensures |k| == |tags| && forall i :: 0 <= i < |tags| ==> k[i] == Kept(tags[i])
  {
    seq(|tags|, i requires 0 <= i < |tags| => Kept(tags[i]))
  }

  function Restored(tags: seq<Tag>): seq<Tag> {
    KeptAll(Written(tags)) + NewTags(|Counted(tags)| - |Written(tags)|)
  }

  lemma {:induction false} WrittenFits(tags: seq<Tag>, size: nat)
    requires size < BUFFER_SIZE
    ensures var k := Fitting(tags, size);
      size + |Body(tags[..k])| < BUFFER_SIZE && (k < |tags| ==> size + |Body(tags[..k + 1])| >= BUFFER_SIZE)
  {
    if tags != [] && size + |Piece(tags[0])| < BUFFER_SIZE {
      var k := Fitting(tags, size);
      WrittenFits(tags[1..], size + |Piece(tags[0])|);
      assert tags[..k][1..] == tags[1..][..k - 1];
      if k < |tags| {
        assert tags[..k + 1][1..] == tags[1..][..k];
      }
    } else if tags != [] {
      assert Body(tags[..1]) == Piece(tags[0]) + Body([]);
    }
  }

  /** The buffer never overflows, and the written tags are the longest prefix that leaves a byte free. */
  lemma SerializedIsBounded(tags: seq<Tag>)
    ensures |Serialized(tags)| < BUFFER_SIZE
    ensures var k := |Written(tags)|;
      k < |Counted(tags)| ==> HEADER_SIZE + |Body(Counted(tags)[..k + 1])| >= BUFFER_SIZE
  {
    WrittenFits(Counted(tags), HEADER_SIZE);
  }

  lemma ReadsOnePiece(head: seq<Byte>, tag: Tag, rest: seq<Byte>)
    ensures ReadTag(head + Piece(tag) + rest, |head|) == Some((Kept(tag), |head| + |Piece(tag)|))
  {
    var p := Piece(tag);
    var bytes := head + p + rest;
    assert bytes[|head|] == p[0];
    if tag.kind == CUSTOM {
      assert bytes[|head| + 1] == p[1];
      assert bytes[|head| + 2..|head| + |p|] == p[2..];
    }
  }

  lemma {:induction false} ReadsWhatWasWritten(head: seq<Byte>, tags: seq<Tag>)
    ensures ReadTags(head + Body(tags), |head|, |tags|) == Some(KeptAll(tags))
    decreases |tags|
  {
    hide Piece, Kept, ReadTag;
    if tags != [] {
      var p := Piece(tags[0]);
      assert head + Body(tags) == (head + p) + Body(tags[1..]);
      ReadsWhatWasWritten(head + p, tags[1..]);
      ReadsOnePiece(head, tags[0], Body(tags[1..]));
      assert KeptAll(tags) == [Kept(tags[0])] + KeptAll(tags[1..]);
    }
  }

  lemma CountsReadBack(n: nat)
    requires n <= 65535
    ensures Number(Low(n), High(n)) == n
  {
    assert n / 256 < 256;
  }

  lemma CountsAreSmall(tags: seq<Tag>)
    ensures |Written(tags)| <= |Counted(tags)| == Min(|tags|, 65535)
  {
  }

  /** Deserializing a serialized stack never reads past its end and restores its written prefix. */
  lemma RoundTrip(tags: seq<Tag>)
    ensures Deserialized(Serialized(tags)) == Some(Restored(tags))
    ensures |Restored(tags)| == Min(|tags|, 65535)
  {
    hide ReadTags, Body, Written, Counted, Low, High, Number;
    var written, counted := |Written(tags)|, |Counted(tags)|;
    CountsAreSmall(tags);
    CountsReadBack(written);
    CountsReadBack(counted);
    ReadsWhatWasWritten(Header(written, counted), Written(tags));
    if counted == 0 {
      assert Restored(tags) == [];
    }
  }

  /** No byte other than NUL after a NUL. */
  predicate StaysEnded(name: seq<Byte>) {
    forall i, j :: 0 <= i < j < |name| && name[i] == 0 ==> name[j] == 0
  }

  predicate Clean(tag: Tag) {
    if tag.kind == CUSTOM then |tag.name| <= 255 && StaysEnded(tag.name) else tag.name == []
  }

  lemma {:induction false} CopiedAt(name: seq<Byte>, n: nat, j: nat)
    requires j < n <= |name|
    ensures Copied(name, n)[j] == if exists i :: 0 <= i < j && name[i] == 0 then 0 else name[j]
  {
    if name[0] != 0 {
      if j > 0 {
        CopiedAt(name[1..], n - 1, j - 1);
        if i :| 0 <= i < j && name[i] == 0 {
          assert name[1..][i - 1] == 0;
        }
      }
    } else if j > 0 {
      assert 0 <= 0 < j && name[0] == 0;
    }
  }

  lemma KeptExactlyWhen(tag: Tag)
    ensures Kept(tag) == tag <==> Clean(tag)
  {
    if tag.kind == CUSTOM && |tag.name| <= 255 {
      var name := tag.name;
      var c := Copied(name, |name|);
      forall j | 0 <= j < |name|
        ensures c[j] == if exists i :: 0 <= i < j && name[i] == 0 then 0 else name[j]
      {
        CopiedAt(name, |name|, j);
      }
      if StaysEnded(name) {
        assert c == name;
      } else {
        var i, j :| 0 <= i < j < |name| && name[i] == 0 && name[j] != 0;
        assert c[j] == 0;
      }
    }
  }

  /** A stack comes back as it was exactly when these hold. */
  predicate Restorable(tags: seq<Tag>) {
    && |tags| <= 65535
    && (forall i :: 0 <= i < |Written(tags)| ==> Clean(tags[i]))
    && (forall i :: |Written(tags)| <= i < |tags| ==> tags[i] == NEW_TAG)
  }

  lemma RestoredExactlyWhen(tags: seq<Tag>)
    ensures Restored(tags) == tags <==> Restorable(tags)
  {
    hide Kept, Clean, Fitting;
    var k := |Written(tags)|;
    forall i | 0 <= i < k
      ensures Kept(tags[i]) == tags[i] <==> Clean(tags[i])
    {
      KeptExactlyWhen(tags[i]);
    }
    if |tags| <= 65535 {
      var r := Restored(tags);
      assert forall i :: 0 <= i < k ==> r[i] == Kept(tags[i]);
      assert forall i :: k <= i < |tags| ==> r[i] == NEW_TAG;
    }
  }

  lemma KeptIsClean(tag: Tag)
    ensures Clean(Kept(tag)) && |Piece(Kept(tag))| == |Piece(tag)|
  {
    if tag.kind == CUSTOM {
      var n := NameLength(tag.name);
      forall j | 0 <= j < n
        ensures Copied(tag.name, n)[j] == if exists i :: 0 <= i < j && tag.name[i] == 0 then 0 else tag.name[j]
      {
        CopiedAt(tag.name, n, j);
      }
    }
  }

  lemma {:induction false} RestoredFits(tags: seq<Tag>, others: seq<Tag>, size: nat)
    requires Fitting(tags, size) <= |others|
    requires forall i :: 0 <= i < Fitting(tags, size) ==> |Piece(others[i])| == |Piece(tags[i])|
    ensures Fitting(others, size) >= Fitting(tags, size)
    decreases |tags|
  {
    if Fitting(tags, size) > 0 {
      RestoredFits(tags[1..], others[1..], size + |Piece(tags[0])|);
    }
  }

  /** Saving and restoring a second time changes nothing more. */
  lemma RestoringTwice(tags: seq<Tag>)
    ensures Restored(Restored(tags)) == Restored(tags)
  {
    hide Kept, Clean, Fitting, Piece;
    var once := Restored(tags);
    var all := Counted(tags);
    var k := Fitting(all, HEADER_SIZE);
    assert Counted(once) == once;
    forall i | 0 <= i < k
      ensures Clean(once[i]) && |Piece(once[i])| == |Piece(all[i])|
    {
      KeptIsClean(all[i]);
      assert once[i] == Kept(all[i]);
    }
    forall i | k <= i < |once|
      ensures once[i] == NEW_TAG && Clean(once[i])
    {
      NewTagIsClean();
    }
    RestoredFits(all, once, HEADER_SIZE);
    RestoredExactlyWhen(once);
  }

  lemma NewTagIsClean()
    ensures Clean(NEW_TAG)
  {
  }

  // ----- the layout, byte by byte -----

  /** How many bytes of a tag's name are saved. */
  function Saved(tag: Tag): nat {
    if |tag.name| <= 255 then |tag.name| else 255
  }

  /** Where the bytes of tag `i` begin. */
  function Offset(tags: seq<Tag>, i: nat): nat
    requires i <= |tags|
  {
    if i == 0 then 4 else Offset(tags, i - 1) + if tags[i - 1].kind == 128 then 2 + Saved(tags[i - 1]) else 1
  }

  /** A name as it is saved: zeros from its first NUL on. */
  predicate SavedAs(name: seq<Byte>, bytes: seq<Byte>) {
    && |bytes| <= |name|
    && forall j :: 0 <= j < |bytes| ==> bytes[j] == if exists i :: 0 <= i < j && name[i] == 0 then 0 else name[j]
  }

  /** What stands in `bytes` from `at` on for a tag. */
  predicate LaidOut(bytes: seq<Byte>, at: nat, tag: Tag) {
    if tag.kind == 128 then
      && at + 2 + Saved(tag) <= |bytes| && bytes[at] == 128 && bytes[at + 1] == Saved(tag)
      && SavedAs(tag.name, bytes[at + 2..at + 2 + Saved(tag)])
    else at < |bytes| && bytes[at] == tag.kind
  }

  lemma PieceIsLaidOut(head: seq<Byte>, tag: Tag, tail: seq<Byte>)
    ensures LaidOut(head + Piece(tag) + tail, |head|, tag)
    ensures |Piece(tag)| == if tag.kind == 128 then 2 + Saved(tag) else 1
  {
    var bytes := head + Piece(tag) + tail;
    assert bytes[|head|] == Piece(tag)[0];
    if tag.kind == 128 {
      var n := NameLength(tag.name);
      assert bytes[|head| + 1] == Piece(tag)[1];
      assert bytes[|head| + 2..|head| + 2 + n] == Copied(tag.name, n);
      forall j | 0 <= j < n
        ensures Copied(tag.name, n)[j] == if exists i :: 0 <= i < j && tag.name[i] == 0 then 0 else tag.name[j]
      {
        CopiedAt(tag.name, n, j);
      }
    }
  }

  lemma {:induction false} OffsetIsLength(tags: seq<Tag>, i: nat)
    requires i <= |tags|
    ensures Offset(tags, i) == 4 + |Body(tags[..i])|
  {
    hide Piece;
    if i == 0 {
      EmptyBody();
    } else {
      OffsetIsLength(tags, i - 1);
      BodyGrows(tags, i - 1);
      PieceIsLaidOut([], tags[i - 1], []);
    }
  }

  lemma BodyAround(tags: seq<Tag>, i: nat)
    requires i < |tags|
    ensures Body(tags) == Body(tags[..i]) + Piece(tags[i]) + Body(tags[i + 1..])
  {
    hide Piece;
    assert tags == tags[..i + 1] + tags[i + 1..];
    BodyJoin(tags[..i + 1], tags[i + 1..]);
    BodyGrows(tags, i);
  }

  lemma {:induction false} OffsetOfPrefix(tags: seq<Tag>, k: nat, i: nat)
    requires i <= k <= |tags|
    ensures Offset(tags[..k], i) == Offset(tags, i)
  {
    if i > 0 {
      OffsetOfPrefix(tags, k, i - 1);
    }
  }

  /** The counts, low bytes first, and how long the encoding is. */
  predicate CountsLaidOut(bytes: seq<Byte>, written: nat, counted: nat) {
    && |bytes| >= 4
    && bytes[0] as nat + 256 * bytes[1] as nat == written && bytes[2] as nat + 256 * bytes[3] as nat == counted
  }

  lemma HeaderIsLaidOut(tags: seq<Tag>)
    ensures var s, k, n := Serialized(tags), |Written(tags)|, Min(|tags|, 65535);
            k <= n && CountsLaidOut(s, k, n) && |s| == Offset(tags, k)
  {
    hide Body, Piece, Low, High, Fitting;
    var k, all := |Written(tags)|, Counted(tags);
    CountsAreSmall(tags);
    CountsReadBack(k);
    CountsReadBack(|all|);
    OffsetOfPrefix(tags, |all|, k);
    OffsetIsLength(all, k);
  }

  lemma WrittenIsLaidOut(tags: seq<Tag>, i: nat)
    requires i < |Written(tags)|
    ensures LaidOut(Serialized(tags), Offset(tags, i), tags[i])
  {
    hide Body, Piece, LaidOut, Header, Fitting;
    var w := Written(tags);
    assert w == tags[..|w|] && w[i] == tags[i];
    var head := Header(|w|, |Counted(tags)|);
    BodyAround(w, i);
    var before, tail := head + Body(w[..i]), Body(w[i + 1..]);
    assert Serialized(tags) == before + Piece(tags[i]) + tail;
    PieceIsLaidOut(before, tags[i], tail);
    OffsetIsLength(w, i);
    OffsetOfPrefix(tags, |w|, i);
    assert |head| == 4 by { HeaderSize(|w|, |Counted(tags)|); }
  }

  lemma HeaderSize(written: nat, counted: nat)
    ensures |Header(written, counted)| == 4
  {
  }

  /** As many tags are written as leave one byte of 1024 free. */
  lemma WrittenLeavesOne(tags: seq<Tag>)
    ensures var k := |Written(tags)|;
            k <= |tags| && Offset(tags, k) < 1024 && (k < |tags| && k < 65535 ==> Offset(tags, k + 1) >= 1024)
  {
    hide Body, Piece, Low, High, Fitting;
    var k, all := |Written(tags)|, Counted(tags);
    CountsAreSmall(tags);
    HeaderIsLaidOut(tags);
    SerializedIsBounded(tags);
    if k < |all| {
      OffsetOfPrefix(tags, |all|, k + 1);
      OffsetIsLength(all, k + 1);
    }
  }

  /** The encoding, byte by byte: how many tags are written and how many there are, and
      then every written tag. */
  lemma LayoutIsExact(tags: seq<Tag>)
    ensures var s, k := Serialized(tags), |Written(tags)|;
            && CountsLaidOut(s, k, if |tags| <= 65535 then |tags| else 65535)
            && k <= |tags| && |s| == Offset(tags, k) < 1024
            && (k < |tags| && k < 65535 ==> Offset(tags, k + 1) >= 1024)
            && forall i :: 0 <= i < k ==> LaidOut(s, Offset(tags, i), tags[i])
  {
    hide Body, Piece, LaidOut, Header, Fitting, Serialized, Written, CountsLaidOut, Offset;
    WrittenLeavesOne(tags);
    HeaderIsLaidOut(tags);
    forall i | 0 <= i < |Written(tags)|
      ensures LaidOut(Serialized(tags), Offset(tags, i), tags[i])
    {
      WrittenIsLaidOut(tags, i);
    }
  }

  /** What is restored, tag by tag: the written ones with their names as saved, then new
      tags. */
  lemma RestoredTagByTag(tags: seq<Tag>)
    ensures var r, k := Restored(tags), |Written(tags)|;
            && k <= |r| == (if |tags| <= 65535 then |tags| else 65535)
            && (forall i :: 0 <= i < k ==>
                  && r[i].kind == tags[i].kind
                  && if tags[i].kind == 128 then |r[i].name| == Saved(tags[i]) && SavedAs(tags[i].name, r[i].name)
                     else r[i].name == [])
            && forall i :: k <= i < |r| ==> r[i] == Tag(129, [])
  {
    hide Fitting;
    var r, k := Restored(tags), |Written(tags)|;
    CountsAreSmall(tags);
    forall i | 0 <= i < k && tags[i].kind == 128
      ensures SavedAs(tags[i].name, r[i].name)
    {
      var n := NameLength(tags[i].name);
      assert r[i] == Kept(tags[i]);
      forall j | 0 <= j < n
        ensures r[i].name[j] == if exists m :: 0 <= m < j && tags[i].name[m] == 0 then 0 else tags[i].name[j]
      {
        CopiedAt(tags[i].name, n, j);
      }
    }
  }

  // ----- what any bytes decode to -----

  /** A tag as it can be read: only a custom tag has a name, and a short one. */
  predicate Readable(tag: Tag) {
    if tag.kind == 128 then |tag.name| <= 255 else tag.name == []
  }

  /** The bytes a tag is read from. */
  function Source(tag: Tag): seq<Byte>
    requires Readable(tag)
  {
    if tag.kind == 128 then [128, |tag.name|] + tag.name else [tag.kind]
  }

  function SourceOf(tags: seq<Tag>): seq<Byte>
    requires forall t <- tags :: Readable(t)
  {
    if tags == [] then [] else Source(tags[0]) + SourceOf(tags[1..])
  }

  predicate StandsAt(bytes: seq<Byte>, at: nat, part: seq<Byte>) {
    at + |part| <= |bytes| && bytes[at..at + |part|] == part
  }

  lemma ReadsOneExactly(bytes: seq<Byte>, at: nat, tag: Tag, end: nat)
    ensures ReadTag(bytes, at) == Some((tag, end)) <==>
            Readable(tag) && StandsAt(bytes, at, Source(tag)) && end == at + |Source(tag)|
  {
    if Readable(tag) && StandsAt(bytes, at, Source(tag)) {
      var part := Source(tag);
      assert bytes[at..at + |part|][0] == bytes[at];
      if tag.kind == 128 {
        assert bytes[at..at + |part|][1] == bytes[at + 1];
        assert bytes[at + 2..at + |part|] == part[2..] == tag.name;
      }
    }
  }

  lemma StandsBoth(bytes: seq<Byte>, at: nat, a: seq<Byte>, b: seq<Byte>)
    ensures StandsAt(bytes, at, a + b) <==> StandsAt(bytes, at, a) && StandsAt(bytes, at + |a|, b)
  {
    if at + |a| + |b| <= |bytes| {
      var part := bytes[at..at + |a| + |b|];
      assert part[..|a|] == bytes[at..at + |a|] && part[|a|..] == bytes[at + |a|..at + |a| + |b|];
      assert part == a + b <==> part[..|a|] == a && part[|a|..] == b;
    }
  }

  lemma {:induction false} ReadsExactly(bytes: seq<Byte>, at: nat, tags: seq<Tag>)
    requires at <= |bytes|
    ensures ReadTags(bytes, at, |tags|) == Some(tags) <==>
            (forall t <- tags :: Readable(t)) && StandsAt(bytes, at, SourceOf(tags))
    decreases |tags|
  {
    hide ReadTag, Readable, Source;
    if tags != [] {
      var read, rest := ReadTag(bytes, at), tags[1..];
      assert tags == [tags[0]] + rest;
      if read.Some? && read.value.0 == tags[0] {
        ReadsOneExactly(bytes, at, tags[0], read.value.1);
        ReadsExactly(bytes, read.value.1, rest);
        if forall t <- tags :: Readable(t) {
          StandsBoth(bytes, at, Source(tags[0]), SourceOf(rest));
        }
      } else if forall t <- tags :: Readable(t) {
        StandsBoth(bytes, at, Source(tags[0]), SourceOf(rest));
        ReadsOneExactly(bytes, at, tags[0], at + |Source(tags[0])|);
      }
    }
  }

  /** Any four bytes and more decode to some tags exactly when there are to be none at all,
      or behind the counts stand the bytes of the written ones and the rest are new. */
  lemma DecodesExactly(bytes: seq<Byte>, tags: seq<Tag>)
    requires |bytes| >= 4
    ensures var written := bytes[0] as nat + 256 * bytes[1] as nat;
            var counted := bytes[2] as nat + 256 * bytes[3] as nat;
            Deserialized(bytes) == Some(tags) <==>
            if counted == 0 then tags == []
            else
              && |tags| == (if written < counted then counted else written)
              && (forall t <- tags[..written] :: Readable(t)) && StandsAt(bytes, 4, SourceOf(tags[..written]))
              && forall i :: written <= i < |tags| ==> tags[i] == Tag(129, [])
  {
    hide ReadTags, Readable, StandsAt;
    var written, counted := Number(bytes[0], bytes[1]), Number(bytes[2], bytes[3]);
    if |tags| == (if written < counted then counted else written) {
      ReadsExactly(bytes, 4, tags[..written]);
      assert tags == tags[..written] + tags[written..];
      if forall i :: written <= i < |tags| ==> tags[i] == Tag(129, []) {
        assert tags[written..] == NewTags(Sub(counted, written));
      }
    }
    var read := ReadTags(bytes, 4, written);
    if read.Some? {
      ReadsAll(bytes, 4, written);
      var all := read.value + NewTags(Sub(counted, written));
      assert all[..written] == read.value;
      assert forall i :: written <= i < |all| ==> all[i] == Tag(129, []);
      if tags == all && counted > 0 {
        assert tags[..written] == read.value;
      }
    }
  }

  lemma {:induction false} ReadsAll(bytes: seq<Byte>, at: nat, n: nat)
    ensures ReadTags(bytes, at, n).Some? ==> |ReadTags(bytes, at, n).value| == n
    decreases n
  {
    if n > 0 && ReadTag(bytes, at).Some? {
      ReadsAll(bytes, ReadTag(bytes, at).value.1, n - 1);
    }
  }
}
