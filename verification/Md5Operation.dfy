/** One MD5 operation on 32-bit words: as RFC 1321 states it in section 3.4, and as the code computes it. */
module Md5Operation {
  type Word = bv32

  /** A number of places, itself a word. */
  type Shift = s: Word | s <= 32

  function Rotated(x: Word, s: Shift): Word {
    (x << s) | (x >> (32 - s))
  }

  /** Bit k of a word. */
  function Bit(x: Word, k: Word): Word
    requires k < 32
  {
    (x >> k) & 1
  }

  /** Every bit moves s places up, */
  lemma RotatedMovesUp(x: Word, s: Shift, k: Word)
    requires s < 32 && k < 32 && k + s < 32
    ensures Bit(Rotated(x, s), k + s) == Bit(x, k)
  {
  }

  /** and from the top to the bottom. */
  lemma RotatedMovesAround(x: Word, s: Shift, k: Word)
    requires s < 32 && k < 32 && k + s >= 32
    ensures Bit(Rotated(x, s), k + s - 32) == Bit(x, k)
  {
  }

  // The four auxiliary functions, and what an operation makes of register w with the value v of one of them.

  function F(x: Word, y: Word, z: Word): Word {
    (x & y) | (!x & z)
  }

  function G(x: Word, y: Word, z: Word): Word {
    (x & z) | (y & !z)
  }

  function H(x: Word, y: Word, z: Word): Word {
    x ^ y ^ z
  }

  function I(x: Word, y: Word, z: Word): Word {
    y ^ (x | !z)
  }

  function Mix(w: Word, v: Word, x: Word, word: Word, t: Word, s: Shift): Word {
    x + Rotated(w + v + (word + t), s)
  }

  // The macros of the code.

  function F1(x: Word, y: Word, z: Word): Word {
    z ^ (x & (y ^ z))
  }

  function F2(x: Word, y: Word, z: Word): Word {
    F1(z, x, y)
  }

  function F3(x: Word, y: Word, z: Word): Word {
    x ^ y ^ z
  }

  function F4(x: Word, y: Word, z: Word): Word {
    y ^ (x | !z)
  }

  function Process(w: Word, v: Word, x: Word, word: Word, t: Word, s: Shift): Word {
    var sum := w + (v + (word + t));
    Rotated(sum, s) + x
  }

  lemma SelectByXor(x: Word, y: Word, z: Word)
    ensures z ^ (x & (y ^ z)) == (x & y) | (!x & z)
  {
  }

  lemma SelectOtherByXor(x: Word, y: Word, z: Word)
    ensures y ^ (z & (x ^ y)) == (x & z) | (y & !z)
  {
  }

  lemma F1IsF(x: Word, y: Word, z: Word)
    ensures F1(x, y, z) == F(x, y, z)
  {
    SelectByXor(x, y, z);
  }

  lemma F2IsG(x: Word, y: Word, z: Word)
    ensures F2(x, y, z) == G(x, y, z)
  {
    SelectOtherByXor(x, y, z);
  }

  lemma SumsAgree(w: Word, v: Word, data: Word)
    ensures w + (v + data) == w + v + data
  {
  }

  lemma SumsCommute(x: Word, y: Word)
    ensures x + y == y + x
  {
  }

  lemma ProcessIsMix(w: Word, v: Word, x: Word, word: Word, t: Word, s: Shift)
    ensures Process(w, v, x, word, t, s) == Mix(w, v, x, word, t, s)
  {
    SumsAgree(w, v, word + t);
    SumsCommute(x, Rotated(w + v + (word + t), s));
  }

  // Words from numbers.

  function Wrapped(n: nat): Word {
    (n % 0x1_0000_0000) as Word
  }

  lemma WordComesBack(x: Word)
    ensures 0 <= x as int < 0x1_0000_0000 && (x as int) as Word == x
  {
  }

  lemma WrappedIs(n: nat, x: Word)
    requires x as int == n
    ensures Wrapped(n) == x
  {
    WordComesBack(x);
  }
}
