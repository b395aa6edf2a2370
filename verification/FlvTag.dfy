/** FLV tags as bytes, laid out as section E.4.1 of Adobe's Video File Format Specification (version 10.1) says. */
module FlvTag {
  import opened CInt
  import opened Sequences

  datatype Tag = Tag(kind: Byte, stamp: UInt32, body: seq<Byte>)

  const AUDIO: Byte := 8
  const VIDEO: Byte := 9

  /** What fits the 24-bit size of a tag header. */
  predicate TagOk(t: Tag) {
    |t.body| < 0x100_0000
  }

  predicate IsKey(t: Tag) {
    t.kind == VIDEO && |t.body| > 0 && t.body[0] / 16 == 1
  }

  function Be24(n: nat): seq<Byte> {
    [n / 0x1_0000 % 256, n / 0x100 % 256, n % 256]
  }

  function Be32(n: nat): seq<Byte> {
    [n / 0x100_0000 % 256, n / 0x1_0000 % 256, n / 0x100 % 256, n % 256]
  }

  /** Header (type, size, time stamp with its extension byte last, stream 0), body, and the size of both once more. */
  function Header(kind: Byte, size: nat, stamp: UInt32): (h: seq<Byte>)
    ensures |h| == 11
  {
    [kind] + Be24(size) + Be24(stamp) + [stamp / 0x100_0000 % 256] + [0, 0, 0]
  }

  function TagSize(t: Tag): nat {
    |t.body| + 15
  }

  function TagBytes(t: Tag): (b: seq<Byte>)
    ensures |b| == TagSize(t)
  {
    Header(t.kind, |t.body|, t.stamp) + t.body + Be32(|t.body| + 11)
  }

  function StreamBytes(tags: seq<Tag>): seq<Byte> {
    if tags == [] then [] else TagBytes(tags[0]) + StreamBytes(tags[1..])
  }

  // Reading a memory of bytes.

  function Word24(a: nat, b: nat, c: nat): (r: nat)
    requires a < 256 && b < 256 && c < 256
    ensures r < 0x100_0000
  {
    a * 0x1_0000 + b * 0x100 + c
  }

  function Word32(a: nat, b: nat, c: nat, d: nat): UInt32
    requires a < 256 && b < 256 && c < 256 && d < 256
  {
    a * 0x100_0000 + Word24(b, c, d)
  }

  function Get24(mem: seq<Byte>, p: nat): nat
    requires p + 3 <= |mem|
  {
    Word24(mem[p], mem[p + 1], mem[p + 2])
  }

  function Get32(mem: seq<Byte>, p: nat): (r: nat)
    requires p + 4 <= |mem|
  {
    Word32(mem[p], mem[p + 1], mem[p + 2], mem[p + 3])
  }

  function BodySize(mem: seq<Byte>, p: nat): nat
    requires p + 4 <= |mem|
  {
    Get24(mem, p + 1)
  }

  function Stamp(mem: seq<Byte>, p: nat): UInt32
    requires p + 8 <= |mem|
  {
    Word32(mem[p + 7], mem[p + 4], mem[p + 5], mem[p + 6])
  }

  function NextTag(mem: seq<Byte>, p: nat): nat
    requires p + 4 <= |mem|
  {
    p + 11 + BodySize(mem, p) + 4
  }

  predicate Fits(mem: seq<Byte>, p: nat, end: nat)
    requires p + 4 <= |mem|
  {
    NextTag(mem, p) <= end
  }

  /** The size after the body agrees with the one before it. */
  predicate Sealed(mem: seq<Byte>, p: nat)
    requires p + 4 <= |mem| && Fits(mem, p, |mem|)
  {
    Get32(mem, p + BodySize(mem, p) + 11) == BodySize(mem, p) + 11
  }

  /** Every tag header met on the way from p to end can be read. */
  predicate HeadersInside(mem: seq<Byte>, p: nat, end: nat)
    decreases end - p
  {
    end <= |mem|
    && (p < end ==> p + 8 <= |mem| && (Fits(mem, p, end) ==> HeadersInside(mem, NextTag(mem, p), end)))
  }

  lemma {:induction false} SlackIsEnough(mem: seq<Byte>, p: nat, end: nat)
    requires end + 7 <= |mem|
    ensures HeadersInside(mem, p, end)
    decreases end - p
  {
    if p < end && Fits(mem, p, end) {
      SlackIsEnough(mem, NextTag(mem, p), end);
    }
  }

  // Writing, then reading.

  lemma Be32Read(n: nat)
    requires n < 0x1_0000_0000
    ensures Word32(n / 0x100_0000 % 256, n / 0x1_0000 % 256, n / 0x100 % 256, n % 256) == n
  {
    var low, middle := n / 0x100, n / 0x100 / 0x100;
    BytesOfWord(middle / 0x100, middle % 0x100, low % 0x100, n % 0x100);
  }

  lemma Be24Read(n: nat)
    requires n < 0x100_0000
    ensures Word24(n / 0x1_0000 % 256, n / 0x100 % 256, n % 256) == n
  {
    var low := n / 0x100;
    BytesOfWord(0, low / 0x100, low % 0x100, n % 0x100);
  }

  lemma HeaderAt(mem: seq<Byte>, p: nat, kind: Byte, size: nat, stamp: UInt32)
    requires p + 11 <= |mem| && mem[p..p + 11] == Header(kind, size, stamp)
    requires size < 0x100_0000
    ensures mem[p] == kind && BodySize(mem, p) == size && Stamp(mem, p) == stamp
  {
    var h := mem[p..p + 11];
    assert mem[p] == h[0] && mem[p + 1] == h[1] && mem[p + 2] == h[2] && mem[p + 3] == h[3];
    assert mem[p + 4] == h[4] && mem[p + 5] == h[5] && mem[p + 6] == h[6] && mem[p + 7] == h[7];
    Be24Read(size);
    Be32Read(stamp);
  }

  lemma SealAt(mem: seq<Byte>, q: nat, n: nat)
    requires q + 4 <= |mem| && mem[q..q + 4] == Be32(n) && n < 0x1_0000_0000
    ensures Get32(mem, q) == n && (n < 0x100_0000 + 11 ==> mem[q] < 16)
  {
    var s := mem[q..q + 4];
    assert mem[q] == s[0] && mem[q + 1] == s[1] && mem[q + 2] == s[2] && mem[q + 3] == s[3];
    Be32Read(n);
  }

  /** Where the three parts of a tag's bytes are. */
  lemma TagParts(mem: seq<Byte>, p: nat, t: Tag)
    requires p + |TagBytes(t)| <= |mem| && mem[p..p + |TagBytes(t)|] == TagBytes(t)
    ensures mem[p..p + 11] == Header(t.kind, |t.body|, t.stamp)
    ensures mem[p + 11..p + 11 + |t.body|] == t.body
    ensures mem[p + 11 + |t.body|..p + 15 + |t.body|] == Be32(|t.body| + 11)
  {
    var b, n := TagBytes(t), |t.body|;
    assert b[..11] == Header(t.kind, n, t.stamp) && b[11..11 + n] == t.body && b[11 + n..15 + n] == Be32(n + 11);
    SliceOfSlice(mem, p, p + |b|, 0, 11);
    SliceOfSlice(mem, p, p + |b|, 11, 11 + n);
    SliceOfSlice(mem, p, p + |b|, 11 + n, 15 + n);
  }

  /** A tag written at p is read back at p: type, size, time stamp, body, key-frame mark and seal. */
  lemma TagReadBack(mem: seq<Byte>, p: nat, t: Tag)
    requires TagOk(t) && p + |TagBytes(t)| <= |mem| && mem[p..p + |TagBytes(t)|] == TagBytes(t)
    ensures mem[p] == t.kind && BodySize(mem, p) == |t.body| && Stamp(mem, p) == t.stamp
    ensures NextTag(mem, p) == p + |TagBytes(t)| && Sealed(mem, p)
    ensures mem[p + 11..p + 11 + |t.body|] == t.body
    ensures IsKey(t) <==> mem[p] == VIDEO && mem[p + 11] / 16 == 1
  {
    var n := |t.body|;
    TagParts(mem, p, t);
    HeaderAt(mem, p, t.kind, n, t.stamp);
    SealAt(mem, p + 11 + n, n + 11);
    if n > 0 {
      assert mem[p + 11] == mem[p + 11..p + 11 + n][0];
    }
  }

  predicate AllOk(tags: seq<Tag>) {
    forall k :: 0 <= k < |tags| ==> TagOk(tags[k])
  }

  /** The bytes from p to end are the tags. */
  predicate Holds(mem: seq<Byte>, p: nat, end: nat, tags: seq<Tag>) {
    p <= end <= |mem| && AllOk(tags) && mem[p..end] == StreamBytes(tags)
  }

  lemma FirstTag(mem: seq<Byte>, p: nat, end: nat, tags: seq<Tag>)
    requires Holds(mem, p, end, tags) && tags != []
    ensures p + 15 <= end && mem[p] == tags[0].kind && BodySize(mem, p) == |tags[0].body| && Stamp(mem, p) == tags[0].stamp
    ensures NextTag(mem, p) == p + |TagBytes(tags[0])| && Fits(mem, p, end) && Sealed(mem, p)
    ensures mem[p + 11..p + 11 + |tags[0].body|] == tags[0].body
    ensures IsKey(tags[0]) <==> mem[p] == VIDEO && mem[p + 11] / 16 == 1
    ensures Holds(mem, NextTag(mem, p), end, tags[1..])
  {
    var n := |TagBytes(tags[0])|;
    SliceOfSlice(mem, p, end, 0, n);
    assert StreamBytes(tags)[..n] == TagBytes(tags[0]);
    TagReadBack(mem, p, tags[0]);
    SliceOfSlice(mem, p, end, n, end - p);
    assert StreamBytes(tags)[n..end - p] == StreamBytes(tags[1..]);
  }

  lemma {:induction false} StreamConcat(a: seq<Tag>, b: seq<Tag>)
    ensures StreamBytes(a + b) == StreamBytes(a) + StreamBytes(b)
  {
    if a == [] {
      assert a + b == b;
    } else {
      assert (a + b)[1..] == a[1..] + b;
      StreamConcat(a[1..], b);
    }
  }

  lemma StreamOne(t: Tag)
    ensures StreamBytes([t]) == TagBytes(t)
  {
    assert StreamBytes([t][1..]) == [];
  }

  // Whole tags, read from arbitrary bytes.

  /** From p, well-sealed tags lead exactly to q. */
  predicate Whole(mem: seq<Byte>, p: nat, q: nat)
    requires q <= |mem|
    decreases q - p
  {
    p == q || (p + 4 <= q && Fits(mem, p, q) && Sealed(mem, p) && Whole(mem, NextTag(mem, p), q))
  }

  function TagAt(mem: seq<Byte>, p: nat): Tag
    requires p + 8 <= |mem| && Fits(mem, p, |mem|)
  {
    Tag(mem[p], Stamp(mem, p), mem[p + 11..p + 11 + BodySize(mem, p)])
  }

  /** The tags read from p to q. */
  function TagsIn(mem: seq<Byte>, p: nat, q: nat): seq<Tag>
    requires q <= |mem| && Whole(mem, p, q)
    decreases q - p
  {
    if p == q then [] else [TagAt(mem, p)] + TagsIn(mem, NextTag(mem, p), q)
  }

  /** Reading inverts writing: every boundary, type, time stamp and body comes back. */
  lemma {:induction false} TagsComeBack(mem: seq<Byte>, p: nat, end: nat, tags: seq<Tag>)
    requires Holds(mem, p, end, tags)
    ensures Whole(mem, p, end) && TagsIn(mem, p, end) == tags
    decreases |tags|
  {
    if tags != [] {
      FirstTag(mem, p, end, tags);
      TagsComeBack(mem, NextTag(mem, p), end, tags[1..]);
      assert TagAt(mem, p) == tags[0] && [tags[0]] + tags[1..] == tags;
    }
  }

  /** Different tag streams have different bytes. */
  lemma BytesDetermineTags(a: seq<Tag>, b: seq<Tag>)
    requires AllOk(a) && AllOk(b) && StreamBytes(a) == StreamBytes(b)
    ensures a == b
  {
    var mem := StreamBytes(a);
    assert mem[0..|mem|] == mem;
    TagsComeBack(mem, 0, |mem|, a);
    TagsComeBack(mem, 0, |mem|, b);
  }
}
