/** The MD5 message digest of RFC 1321, of a whole message. */
module Md5Rfc {
  import opened CInt
  import opened Md5Operation
  import opened Md5Rounds
  import opened Md5Blocks

  type Registers = Quad<Word>

  /** Section 3.4, with the functions as they are printed there. */
  function Standard(): Scheme<Word> {
    Scheme(F, G, H, I, Mix)
  }

  /** Low-order byte first. */
  function WordFrom(a: nat, b: nat, c: nat, d: nat): Word {
    Wrapped(a + 0x100 * b + 0x1_0000 * c + 0x100_0000 * d)
  }

  function WordsOf(block: Block): (r: seq<Word>)
    ensures |r| == 16
  {
    seq(16, i requires 0 <= i < 16 => WordFrom(block[4 * i], block[4 * i + 1], block[4 * i + 2], block[4 * i + 3]))
  }

  function Sum(h: Registers, g: Registers): Registers {
    Quad(h.a + g.a, h.b + g.b, h.c + g.c, h.d + g.d)
  }

  function Compress(h: Registers, block: Block): Registers {
    Sum(h, Operations(Standard(), h, WordsOf(block), 64))
  }

  /** Section 3.3. */
  function Initial(): Registers {
    Quad(0x67452301, 0xefcdab89, 0x98badcfe, 0x10325476)
  }

  /** Section 3.5: the registers, low-order byte first. */
  function Digest(h: Registers): seq<Byte> {
    Le32(h.a as int) + Le32(h.b as int) + Le32(h.c as int) + Le32(h.d as int)
  }

  function Md5Digest(message: seq<Byte>): seq<Byte> {
    Digest(Hash(Compress, Initial(), message))
  }
}
