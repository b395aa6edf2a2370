/** Hashing in blocks of 64 bytes with padding (sections 3.1 to 3.3 of RFC 1321), for any compression function. */
module Md5Blocks {
  import opened CInt

  type Block = b: seq<Byte> | |b| == 64 witness Zeros(64)

  type Compression<!H> = (H, Block) -> H

  /** All full blocks of a message, one after the other. */
  function Blocks<H>(compress: Compression<H>, h: H, message: seq<Byte>): H
    decreases |message|
  {
    if |message| < 64 then h else Blocks(compress, compress(h, message[..64]), message[64..])
  }

  function Zeros(n: nat): (r: seq<Byte>)
    ensures |r| == n
  {
    seq(n, _ => 0)
  }

  function Le32(n: nat): (r: seq<Byte>)
    ensures |r| == 4
  {
    [n % 256, n / 0x100 % 256, n / 0x1_0000 % 256, n / 0x100_0000 % 256]
  }

  const TWO64: nat := 0x1_0000_0000_0000_0000

  /** A 64-bit number, low-order word first. */
  function Le64(n: nat): (r: seq<Byte>)
    ensures |r| == 8
  {
    Le32(n % TWO32) + Le32(n / TWO32)
  }

  function PadZeros(length: nat): nat {
    if length % 64 < 56 then 55 - length % 64 else 119 - length % 64
  }

  /** A one bit, zeros up to 448 bits modulo 512, and the length in bits. */
  function Padding(length: nat): (r: seq<Byte>)
    ensures |r| == 9 + PadZeros(length)
  {
    [0x80] + Zeros(PadZeros(length)) + Le64(8 * length % TWO64)
  }

  lemma PaddingFills(length: nat)
    ensures (length + |Padding(length)|) % 64 == 0
  {
    FillsBlock(length / 64, length % 64);
  }

  lemma FillsBlock(q: nat, r: nat)
    requires r < 64
    ensures (64 * q + r + 9 + if r < 56 then 55 - r else 119 - r) % 64 == 0
  {
  }

  /** The registers after the padded message. */
  function Hash<H>(compress: Compression<H>, h: H, message: seq<Byte>): H {
    Blocks(compress, h, message + Padding(|message|))
  }

  lemma {:induction false} BlocksConcat<H>(compress: Compression<H>, h: H, front: seq<Byte>, rest: seq<Byte>)
    requires |front| % 64 == 0
    ensures Blocks(compress, h, front + rest) == Blocks(compress, Blocks(compress, h, front), rest)
    decreases |front|
  {
    if front == [] {
      assert front + rest == rest;
    } else {
      assert (front + rest)[..64] == front[..64] && (front + rest)[64..] == front[64..] + rest;
      BlocksConcat(compress, compress(h, front[..64]), front[64..], rest);
    }
  }

  /** A block more is one compression more. */
  lemma OneBlockMore<H>(compress: Compression<H>, h: H, front: seq<Byte>, block: Block)
    requires |front| % 64 == 0
    ensures Blocks(compress, h, front + block) == compress(Blocks(compress, h, front), block)
  {
    BlocksConcat(compress, h, front, block);
    assert block[..64] == block;
  }

  /** What does not fill a block does not count yet. */
  lemma TailIgnored<H>(compress: Compression<H>, h: H, front: seq<Byte>, tail: seq<Byte>)
    requires |front| % 64 == 0 && |tail| < 64
    ensures Blocks(compress, h, front + tail) == Blocks(compress, h, front)
  {
    BlocksConcat(compress, h, front, tail);
  }

  /** The part of a message behind its full blocks. */
  function Tail(message: seq<Byte>): (t: seq<Byte>)
    ensures |t| == |message| % 64
  {
    message[|message| - |message| % 64..]
  }

  /** A message is full blocks and a tail. */
  function Front(message: seq<Byte>): seq<Byte> {
    message[..|message| - |message| % 64]
  }

  lemma FrontIsFull(message: seq<Byte>)
    ensures |Front(message)| % 64 == 0 && message == Front(message) + Tail(message)
  {
    DivisionIsUnique(|Front(message)|, 64, |message| / 64, 0);
  }

  lemma TailOf<H>(compress: Compression<H>, h: H, front: seq<Byte>, tail: seq<Byte>)
    requires |front| % 64 == 0 && |tail| < 64
    ensures |front + tail| % 64 == |tail| && Tail(front + tail) == tail
    ensures Blocks(compress, h, front + tail) == Blocks(compress, h, front)
  {
    DivisionIsUnique(|front + tail|, 64, |front| / 64, |tail|);
    TailIgnored(compress, h, front, tail);
  }

  lemma LongerTail<H>(compress: Compression<H>, h: H, front: seq<Byte>, tail: seq<Byte>, data: seq<Byte>)
    requires |front| % 64 == 0 && |tail| + |data| < 64
    ensures Blocks(compress, h, front + tail + data) == Blocks(compress, h, front + tail)
    ensures |front + tail + data| % 64 == |tail| + |data| && Tail(front + tail + data) == tail + data
  {
    assert front + tail + data == front + (tail + data);
    TailOf(compress, h, front, tail + data);
    TailIgnored(compress, h, front, tail);
  }

  /** Data that does not complete the block is only kept. */
  lemma MoreTail<H>(compress: Compression<H>, h: H, message: seq<Byte>, data: seq<Byte>)
    requires |message| % 64 + |data| < 64
    ensures Blocks(compress, h, message + data) == Blocks(compress, h, message)
    ensures |message + data| % 64 == |message| % 64 + |data| && Tail(message + data) == Tail(message) + data
  {
    FrontIsFull(message);
    LongerTail(compress, h, Front(message), Tail(message), data);
  }

  /** Data that completes the block. */
  lemma CompleteBlock<H>(compress: Compression<H>, h: H, message: seq<Byte>, data: seq<Byte>)
    requires |message| % 64 + |data| == 64
    ensures Blocks(compress, h, message + data) == compress(Blocks(compress, h, message), Tail(message) + data)
    ensures |message + data| % 64 == 0
  {
    FrontIsFull(message);
    TailIgnored(compress, h, Front(message), Tail(message));
    OneBlockMore(compress, h, Front(message), Tail(message) + data);
    assert message + data == Front(message) + (Tail(message) + data);
    BoundaryMoves(|Front(message)|);
  }

  lemma BoundaryMoves(n: nat)
    requires n % 64 == 0
    ensures (n + 64) % 64 == 0
  {
  }

  lemma SliceGrows(message: seq<Byte>, data: seq<Byte>, i: nat)
    requires i + 64 <= |data|
    ensures message + data[..i + 64] == message + data[..i] + data[i..i + 64]
  {
  }

  /** The next 64 bytes of the data, from a block boundary. */
  lemma NextBlock<H>(compress: Compression<H>, h: H, message: seq<Byte>, data: seq<Byte>, i: nat)
    requires i + 64 <= |data| && |message + data[..i]| % 64 == 0
    ensures |message + data[..i + 64]| % 64 == 0
    ensures Blocks(compress, h, message + data[..i + 64])
         == compress(Blocks(compress, h, message + data[..i]), data[i..i + 64])
  {
    var front, block := message + data[..i], data[i..i + 64];
    SliceGrows(message, data, i);
    BoundaryMoves(|front|);
    OneBlockMore(compress, h, front, block);
  }

  /** What is left of the data is what is left of the message. */
  lemma Leftover<H>(compress: Compression<H>, h: H, message: seq<Byte>, data: seq<Byte>, i: nat)
    requires i <= |data| < i + 64 && |message + data[..i]| % 64 == 0
    ensures Blocks(compress, h, message + data) == Blocks(compress, h, message + data[..i])
    ensures |message + data| % 64 == |data| - i && Tail(message + data) == data[i..]
  {
    TailOf(compress, h, message + data[..i], data[i..]);
    assert message + data[..i] + data[i..] == message + data;
  }

  // The last blocks.

  function BlockBeforeLast(tail: seq<Byte>): Block
    requires 56 <= |tail| < 64
  {
    tail + [0x80] + Zeros(63 - |tail|)
  }

  /** What stands in front of the length in the last block. */
  function BeforeCount(tail: seq<Byte>): (r: seq<Byte>)
    requires |tail| < 64
    ensures |r| == 56
  {
    if |tail| < 56 then tail + [0x80] + Zeros(55 - |tail|) else Zeros(56)
  }

  lemma ZerosConcat(a: nat, b: nat)
    ensures Zeros(a) + Zeros(b) == Zeros(a + b)
  {
  }

  /** With room for the length behind the tail, one block is left. */
  lemma PadsOneBlock(message: seq<Byte>)
    requires |Tail(message)| < 56
    ensures message + Padding(|message|)
         == Front(message) + (BeforeCount(Tail(message)) + Le64(8 * |message| % TWO64))
  {
    var tail, count := Tail(message), Le64(8 * |message| % TWO64);
    FrontIsFull(message);
    JoinOne(Front(message), tail, [0x80], Zeros(55 - |tail|), count);
  }

  lemma JoinOne(front: seq<Byte>, tail: seq<Byte>, mark: seq<Byte>, zeros: seq<Byte>, count: seq<Byte>)
    ensures front + tail + (mark + zeros + count) == front + (tail + mark + zeros + count)
  {
  }

  /** Without, two are. */
  lemma PadsTwoBlocks(message: seq<Byte>)
    requires 56 <= |Tail(message)|
    ensures message + Padding(|message|)
         == Front(message) + BlockBeforeLast(Tail(message))
            + (BeforeCount(Tail(message)) + Le64(8 * |message| % TWO64))
  {
    var tail, count := Tail(message), Le64(8 * |message| % TWO64);
    FrontIsFull(message);
    ZerosConcat(63 - |tail|, 56);
    JoinTwo(Front(message), tail, [0x80], Zeros(63 - |tail|), Zeros(56), count);
  }

  lemma JoinTwo(front: seq<Byte>, tail: seq<Byte>, mark: seq<Byte>, zeros: seq<Byte>, more: seq<Byte>, count: seq<Byte>)
    ensures front + tail + (mark + (zeros + more) + count) == front + (tail + mark + zeros) + (more + count)
  {
  }

  /** Padding ends the tail with one block or two. */
  lemma HashEnds<H>(compress: Compression<H>, h: H, message: seq<Byte>)
    ensures var tail, count, g := Tail(message), Le64(8 * |message| % TWO64), Blocks(compress, h, message);
            Hash(compress, h, message)
            == compress(if |tail| < 56 then g else compress(g, BlockBeforeLast(tail)), BeforeCount(tail) + count)
  {
    var front, tail := Front(message), Tail(message);
    var last := BeforeCount(tail) + Le64(8 * |message| % TWO64);
    FrontIsFull(message);
    TailIgnored(compress, h, front, tail);
    if |tail| < 56 {
      PadsOneBlock(message);
      OneBlockMore(compress, h, front, last);
    } else {
      var before := BlockBeforeLast(tail);
      PadsTwoBlocks(message);
      OneBlockMore(compress, h, front, before);
      BoundaryMoves(|front|);
      OneBlockMore(compress, h, front + before, last);
    }
  }
}
