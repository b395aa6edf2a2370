/** The streaming MD5 of the firmware check, and why it computes the digest of the whole message. */
module Md5 {
  import opened CInt
  import opened Memory
  import opened Md5Operation
  import opened Md5Rounds
  import opened Md5Blocks
  import opened Md5Rfc

  /** The macros of the code as a scheme. */
  function Macros(): Scheme<Word> {
    Scheme(F1, F2, F3, F4, Process)
  }

  lemma SameF1(x: Word, y: Word, z: Word)
    ensures Macros().f1(x, y, z) == Standard().f1(x, y, z)
  {
    F1IsF(x, y, z);
  }

  lemma SameF2(x: Word, y: Word, z: Word)
    ensures Macros().f2(x, y, z) == Standard().f2(x, y, z)
  {
    F2IsG(x, y, z);
  }

  lemma SameF3(x: Word, y: Word, z: Word)
    ensures Macros().f3(x, y, z) == Standard().f3(x, y, z)
  {
  }

  lemma SameF4(x: Word, y: Word, z: Word)
    ensures Macros().f4(x, y, z) == Standard().f4(x, y, z)
  {
  }

  lemma SameMix(w: Word, v: Word, x: Word, word: Word, t: Word, s: Shift)
    ensures Macros().mix(w, v, x, word, t, s) == Standard().mix(w, v, x, word, t, s)
  {
    ProcessIsMix(w, v, x, word, t, s);
  }

  /** The unrolled macros compute what the standard's functions do. */
  lemma MacrosAreStandard(h: Registers, words: seq<Word>)
    requires |words| == 16
    ensures Operations(Macros(), h, words, 64) == Operations(Standard(), h, words, 64)
  {
    var code, rfc := Macros(), Standard();
    forall x, y, z ensures code.f1(x, y, z) == rfc.f1(x, y, z) { SameF1(x, y, z); }
    forall x, y, z ensures code.f2(x, y, z) == rfc.f2(x, y, z) { SameF2(x, y, z); }
    forall x, y, z ensures code.f3(x, y, z) == rfc.f3(x, y, z) { SameF3(x, y, z); }
    forall x, y, z ensures code.f4(x, y, z) == rfc.f4(x, y, z) { SameF4(x, y, z); }
    forall w, v, x, word, t, s ensures code.mix(w, v, x, word, t, s) == rfc.mix(w, v, x, word, t, s) {
      SameMix(w, v, x, word, t, s);
    }
    SameOperations(code, rfc, h, words, 64);
  }

  /** The registers for a message so far. */
  function Absorbed(message: seq<Byte>): Registers {
    Blocks(Compress, Initial(), message)
  }

  /** A 64-bit count in two halves. */
  predicate Counts(low: UInt32, high: UInt32, length: nat) {
    low + TWO32 * high == 8 * length % TWO64
  }

  class Context {
    var buf: Registers
    var low: UInt32
    var high: UInt32
    const input: array<Byte>

    constructor ()
      ensures Represents([]) && fresh(input)
    {
      buf := Quad(0x67452301, 0xefcdab89, 0x98badcfe, 0x10325476);
      low, high := 0, 0;
      input := new Byte[64](_ => 0);
    }

    /** The context stands for a message: registers after its full blocks, the rest of it, its length in bits. */
    ghost predicate Represents(message: seq<Byte>)
      reads this, input
    {
      && input.Length == 64 && buf == Absorbed(message) && Counts(low, high, |message|)
      && input[..|message| % 64] == Tail(message)
    }

    method Transform()
      requires input.Length == 64
      modifies this`buf
      ensures buf == Compress(old(buf), input[..])
    {
      var words := WordsOf(input[..]);
      var g := Round1(Macros(), buf, buf, words);
      g := Round2(Macros(), buf, g, words);
      g := Round3(Macros(), buf, g, words);
      g := Round4(Macros(), buf, g, words);
      MacrosAreStandard(buf, words);
      buf := Sum(buf, g);
    }

    /** Add to the 64-bit count of bits, carrying by hand; the count before tells how many bytes are in the buffer. */
    method CountBits(len: UInt32, ghost length: nat) returns (held: nat)
      requires Counts(low, high, length)
      modifies this`low, this`high
      ensures Counts(low, high, length + len) && held == length % 64
    {
      var before := low;
      CountAdds(low, high, length, len);
      BufferedBytes(low, high, length);
      low := (before + 8 * len % TWO32) % TWO32;
      if low < before {
        high := (high + 1) % TWO32;
      }
      high := (high + len / 0x2000_0000) % TWO32;
      held := before / 8 % 64;
    }

    /** Use data for the block begun before, if there is one: how much is used, and whether that was all. */
    method FillBlock(data: seq<Byte>, held: nat, ghost message: seq<Byte>) returns (i: nat, all: bool)
      requires input.Length == 64 && held == |message| % 64 && buf == Absorbed(message) && input[..held] == Tail(message)
      modifies this`buf, input
      ensures i <= |data| && (all ==> Absorbed(message + data) == buf && input[..|message + data| % 64] == Tail(message + data))
      ensures !all ==> |message + data[..i]| % 64 == 0 && buf == Absorbed(message + data[..i])
    {
      i, all := 0, false;
      if held != 0 {
        if |data| < 64 - held {
          Store(input, held, data);
          MoreTail(Compress, Initial(), message, data);
          assert input[..held + |data|] == Tail(message) + data;
          return 0, true;
        }
        i := 64 - held;
        Store(input, held, data[..i]);
        assert input[..] == Tail(message) + data[..i];
        CompleteBlock(Compress, Initial(), message, data[..i]);
        Transform();
      } else {
        assert message + data[..0] == message;
      }
    }

    /** Absorb more of the message. */
    method Update(data: seq<Byte>, ghost message: seq<Byte>)
      requires Represents(message) && |data| < TWO32
      modifies this, input
      ensures Represents(message + data)
    {
      var held := CountBits(|data|, |message|);
      var i, all := FillBlock(data, held, message);
      if !all {
        i := WholeBlocks(data, i, message);
        KeepRest(data, i, message);
      }
    }

    /** The rest of the data begins the next block. */
    method KeepRest(data: seq<Byte>, i: nat, ghost message: seq<Byte>)
      requires input.Length == 64 && i <= |data| < i + 64 && |message + data[..i]| % 64 == 0
      requires buf == Absorbed(message + data[..i])
      modifies input
      ensures buf == Absorbed(message + data) && input[..|message + data| % 64] == Tail(message + data)
    {
      Leftover(Compress, Initial(), message, data, i);
      Store(input, 0, data[i..]);
      assert input[..|data| - i] == data[i..];
    }

    /** The padding up to the length; a block of its own if there is no room for the length behind the tail. */
    method Pad(cnt: nat, ghost tail: seq<Byte>)
      requires input.Length == 64 && cnt == |tail| < 64 && input[..cnt] == tail
      modifies this`buf, input
      ensures buf == if cnt < 56 then old(buf) else Compress(old(buf), BlockBeforeLast(tail))
      ensures input[..56] == BeforeCount(tail)
    {
      input[cnt] := 0x80;
      if 63 - cnt < 8 {
        Store(input, cnt + 1, Zeros(63 - cnt));
        assert input[..] == BlockBeforeLast(tail);
        Transform();
        Store(input, 0, Zeros(56));
      } else {
        Store(input, cnt + 1, Zeros(55 - cnt));
      }
    }

    /** Pad the message, hash what is left of it, and read the digest off. The registers are not wiped: only the first
        of them is, whose size is that of a pointer. */
    method Final(ghost message: seq<Byte>) returns (digest: seq<Byte>)
      requires Represents(message)
      modifies this, input
      ensures digest == Md5Digest(message)
      ensures buf == Hash(Compress, Initial(), message).(a := 0)
    {
      BufferedBytes(low, high, |message|);
      LastBlocks(low, high, message);
      ghost var all := Hash(Compress, Initial(), message);
      ghost var last := BeforeCount(Tail(message)) + (Le32(low) + Le32(high));
      Pad(low / 8 % 64, Tail(message));
      PutCount(BeforeCount(Tail(message)));
      assert input[..] == last;
      Transform();
      assert buf == all;
      digest := Digest(buf);
      buf := buf.(a := 0);
    }

    /** The length goes into the last eight bytes. */
    method PutCount(ghost front: seq<Byte>)
      requires input.Length == 64 && |front| == 56 && input[..56] == front
      modifies input
      ensures input[..] == front + (Le32(low) + Le32(high))
    {
      Store(input, 56, Le32(low));
      Store(input, 60, Le32(high));
    }

    /** One full block of the data. */
    method AbsorbBlock(data: seq<Byte>, i: nat, ghost message: seq<Byte>)
      requires input.Length == 64 && i + 64 <= |data|
      requires |message + data[..i]| % 64 == 0 && buf == Absorbed(message + data[..i])
      modifies this`buf, input
      ensures |message + data[..i + 64]| % 64 == 0 && buf == Absorbed(message + data[..i + 64])
    {
      NextBlock(Compress, Initial(), message, data, i);
      Store(input, 0, data[i..i + 64]);
      assert input[..] == data[i..i + 64];
      Transform();
    }

    /** All blocks that the data fills. */
    method WholeBlocks(data: seq<Byte>, start: nat, ghost message: seq<Byte>) returns (i: nat)
      requires input.Length == 64 && start <= |data| && |message + data[..start]| % 64 == 0 && buf == Absorbed(message + data[..start])
      modifies this`buf, input
      ensures i <= |data| < i + 64 && |message + data[..i]| % 64 == 0 && buf == Absorbed(message + data[..i])
    {
      i := start;
      while |data| - i >= 64
        invariant i <= |data| && |message + data[..i]| % 64 == 0 && buf == Absorbed(message + data[..i])
      {
        AbsorbBlock(data, i, message);
        i := i + 64;
      }
    }
  }

  lemma HalvesOfCount(low: UInt32, high: UInt32, length: nat)
    requires Counts(low, high, length)
    ensures Le64(8 * length % TWO64) == Le32(low) + Le32(high)
  {
    DivisionIsUnique(8 * length % TWO64, TWO32, high, low);
  }

  lemma LastBlocks(low: UInt32, high: UInt32, message: seq<Byte>)
    requires Counts(low, high, |message|)
    ensures var tail, g := Tail(message), Absorbed(message);
            Hash(Compress, Initial(), message)
            == Compress(if |tail| < 56 then g else Compress(g, BlockBeforeLast(tail)),
                        BeforeCount(tail) + (Le32(low) + Le32(high)))
  {
    HalvesOfCount(low, high, |message|);
    HashEnds(Compress, Initial(), message);
  }

  lemma CarryIsRight(low: UInt32, x: UInt32)
    ensures var sum := (low + x) % TWO32;
            sum + TWO32 * (if sum < low then 1 else 0) == low + x
  {
  }

  lemma SumWraps(a: nat, q: nat)
    ensures (a % TWO32 + q) % TWO32 == (a + q) % TWO32
  {
  }

  lemma CarryAdds(low: UInt32, high: UInt32, length: nat, len: UInt32, j: nat, k: nat)
    requires 8 * length == TWO64 * j + (low + TWO32 * high)
    requires var sum := (low + 8 * len % TWO32) % TWO32;
             k == (high + (if sum < low then 1 else 0) + len / 0x2000_0000) / TWO32
    ensures var sum := (low + 8 * len % TWO32) % TWO32;
            var h := (high + (if sum < low then 1 else 0) + len / 0x2000_0000) % TWO32;
            8 * (length + len) == TWO64 * (j + k) + (sum + TWO32 * h)
  {
    CarryIsRight(low, 8 * len % TWO32);
    assert 8 * len == 8 * len % TWO32 + TWO32 * (len / 0x2000_0000);
  }

  lemma CountAdds(low: UInt32, high: UInt32, length: nat, len: UInt32)
    requires Counts(low, high, length)
    ensures var sum := (low + 8 * len % TWO32) % TWO32;
            var carry := if sum < low then 1 else 0;
            Counts(sum, ((high + carry) % TWO32 + len / 0x2000_0000) % TWO32, length + len)
  {
    var x, q := 8 * len % TWO32, len / 0x2000_0000;
    var sum := (low + x) % TWO32;
    var carry := if sum < low then 1 else 0;
    var h, k := (high + carry + q) % TWO32, (high + carry + q) / TWO32;
    SumWraps(high + carry, q);
    var j := 8 * length / TWO64;
    CarryAdds(low, high, length, len, j, k);
    DivisionIsUnique(8 * (length + len), TWO64, j + k, sum + TWO32 * h);
  }

  /** The number of bytes in the buffer is read from the bit count. */
  lemma BufferedBytes(low: UInt32, high: UInt32, length: nat)
    requires Counts(low, high, length)
    ensures low / 8 % 64 == length % 64
  {
    var j := 8 * length / TWO64;
    var blocks := 0x80_0000 * high + 0x80_0000_0000_0000 * j;
    assert low == 8 * (length - 64 * blocks);
    assert low / 8 == length - 64 * blocks;
    DivisionIsUnique(length, 64, low / 8 / 64 + blocks, low / 8 % 64);
  }

  const BUDGET := 4096

  lemma PieceJoins(bin: seq<Byte>, i: nat, j: nat)
    requires i <= j <= |bin|
    ensures bin[..i] + bin[i..j] == bin[..j] && bin[..|bin|] == bin
  {
  }

  /** The check of a whole image, in pieces. */
  method ValidateBin(bin: seq<Byte>) returns (digest: seq<Byte>)
    requires |bin| < TWO32
    ensures digest == Md5Digest(bin)
  {
    var context := new Context();
    var pieces := |bin| / BUDGET;
    var last := |bin| - pieces * BUDGET;
    var i := 0;
    while i < pieces
      invariant 0 <= i <= pieces && context.Represents(bin[..i * BUDGET])
      invariant fresh(context) && fresh(context.input)
    {
      PieceJoins(bin, i * BUDGET, (i + 1) * BUDGET);
      context.Update(bin[i * BUDGET..(i + 1) * BUDGET], bin[..i * BUDGET]);
      i := i + 1;
    }
    PieceJoins(bin, i * BUDGET, |bin|);
    context.Update(bin[i * BUDGET..i * BUDGET + last], bin[..i * BUDGET]);
    digest := context.Final(bin);
  }
}
