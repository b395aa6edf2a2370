/** The sixty-four operations on a block, as the tables of RFC 1321 (section 3.4) order them, and unrolled as in the code.
    Nothing here depends on what an operation does to words of type W. */
module Md5Rounds {
  import opened Md5Operation

  /** The four registers. */
  datatype Quad<W> = Quad(a: W, b: W, c: W, d: W)

  /** One function for each round, and what register w becomes: given a function's value, the register x that is added,
      a word of the block, a constant and a shift. */
  datatype Scheme<!W> = Scheme(f1: (W, W, W) -> W, f2: (W, W, W) -> W, f3: (W, W, W) -> W, f4: (W, W, W) -> W,
                               mix: (W, W, W, W, Word, Shift) -> W)

  // The table T, a row for each round.
  const T1: seq<Word> := [
    0xd76aa478, 0xe8c7b756, 0x242070db, 0xc1bdceee,
    0xf57c0faf, 0x4787c62a, 0xa8304613, 0xfd469501,
    0x698098d8, 0x8b44f7af, 0xffff5bb1, 0x895cd7be,
    0x6b901122, 0xfd987193, 0xa679438e, 0x49b40821]
  const T2: seq<Word> := [
    0xf61e2562, 0xc040b340, 0x265e5a51, 0xe9b6c7aa,
    0xd62f105d, 0x02441453, 0xd8a1e681, 0xe7d3fbc8,
    0x21e1cde6, 0xc33707d6, 0xf4d50d87, 0x455a14ed,
    0xa9e3e905, 0xfcefa3f8, 0x676f02d9, 0x8d2a4c8a]
  const T3: seq<Word> := [
    0xfffa3942, 0x8771f681, 0x6d9d6122, 0xfde5380c,
    0xa4beea44, 0x4bdecfa9, 0xf6bb4b60, 0xbebfbc70,
    0x289b7ec6, 0xeaa127fa, 0xd4ef3085, 0x04881d05,
    0xd9d4d039, 0xe6db99e5, 0x1fa27cf8, 0xc4ac5665]
  const T4: seq<Word> := [
    0xf4292244, 0x432aff97, 0xab9423a7, 0xfc93a039,
    0x655b59c3, 0x8f0ccc92, 0xffeff47d, 0x85845dd1,
    0x6fa87e4f, 0xfe2ce6e0, 0xa3014314, 0x4e0811a1,
    0xf7537e82, 0xbd3af235, 0x2ad7d2bb, 0xeb86d391]

  function T(i: nat): Word
    requires i < 64
  {
    if i < 16 then T1[i] else if i < 32 then T2[i - 16] else if i < 48 then T3[i - 32] else T4[i - 48]
  }

  function FunctionOf<W>(op: Scheme<W>, i: nat): (W, W, W) -> W {
    if i < 16 then op.f1 else if i < 32 then op.f2 else if i < 48 then op.f3 else op.f4
  }

  /** Which word of the block operation i uses. */
  function WordOf(i: nat): (k: nat)
    ensures k < 16
  {
    if i < 16 then i else if i < 32 then (5 * i + 1) % 16 else if i < 48 then (3 * i + 5) % 16 else 7 * i % 16
  }

  const SHIFT1: seq<Shift> := [7, 12, 17, 22]
  const SHIFT2: seq<Shift> := [5, 9, 14, 20]
  const SHIFT3: seq<Shift> := [4, 11, 16, 23]
  const SHIFT4: seq<Shift> := [6, 10, 15, 21]

  function ShiftOf(i: nat): Shift {
    if i < 16 then SHIFT1[i % 4] else if i < 32 then SHIFT2[i % 4]
    else if i < 48 then SHIFT3[i % 4] else SHIFT4[i % 4]
  }

  /** The registers after the first n operations; they change roles after each. */
  function Operations<W>(op: Scheme<W>, h: Quad<W>, block: seq<W>, n: nat): Quad<W>
    requires |block| == 16 && n <= 64
  {
    if n == 0 then h
    else
      var g, i := Operations(op, h, block, n - 1), n - 1;
      var v := FunctionOf(op, i)(g.b, g.c, g.d);
      Quad(g.d, op.mix(g.a, v, g.b, block[WordOf(i)], T(i), ShiftOf(i)), g.b, g.c)
  }

  /** The same function values and mixtures give the same registers. */
  lemma {:induction false} SameOperations<W(!new)>(op: Scheme<W>, other: Scheme<W>, h: Quad<W>, block: seq<W>, n: nat)
    requires |block| == 16 && n <= 64
    requires forall x, y, z :: op.f1(x, y, z) == other.f1(x, y, z)
    requires forall x, y, z :: op.f2(x, y, z) == other.f2(x, y, z)
    requires forall x, y, z :: op.f3(x, y, z) == other.f3(x, y, z)
    requires forall x, y, z :: op.f4(x, y, z) == other.f4(x, y, z)
    requires forall w, v, x, word, t, s :: op.mix(w, v, x, word, t, s) == other.mix(w, v, x, word, t, s)
    ensures Operations(op, h, block, n) == Operations(other, h, block, n)
  {
    if n > 0 {
      SameOperations(op, other, h, block, n - 1);
    }
  }

  /** Round 1: operations 0 to 15. */
  method Round1<W>(op: Scheme<W>, ghost h: Quad<W>, g: Quad<W>, input: seq<W>) returns (r: Quad<W>)
    requires |input| == 16 && g == Operations(op, h, input, 0)
    ensures r == Operations(op, h, input, 16)
  {
    var a, b, c, d := g.a, g.b, g.c, g.d;
    a := op.mix(a, op.f1(b, c, d), b, input[0], 0xd76aa478, 7);
    assert Quad(d, a, b, c) == Operations(op, h, input, 1);
    d := op.mix(d, op.f1(a, b, c), a, input[1], 0xe8c7b756, 12);
    assert Quad(c, d, a, b) == Operations(op, h, input, 2);
    c := op.mix(c, op.f1(d, a, b), d, input[2], 0x242070db, 17);
    assert Quad(b, c, d, a) == Operations(op, h, input, 3);
    b := op.mix(b, op.f1(c, d, a), c, input[3], 0xc1bdceee, 22);
    assert Quad(a, b, c, d) == Operations(op, h, input, 4);
    a := op.mix(a, op.f1(b, c, d), b, input[4], 0xf57c0faf, 7);
    assert Quad(d, a, b, c) == Operations(op, h, input, 5);
    d := op.mix(d, op.f1(a, b, c), a, input[5], 0x4787c62a, 12);
    assert Quad(c, d, a, b) == Operations(op, h, input, 6);
    c := op.mix(c, op.f1(d, a, b), d, input[6], 0xa8304613, 17);
    assert Quad(b, c, d, a) == Operations(op, h, input, 7);
    b := op.mix(b, op.f1(c, d, a), c, input[7], 0xfd469501, 22);
    assert Quad(a, b, c, d) == Operations(op, h, input, 8);
    a := op.mix(a, op.f1(b, c, d), b, input[8], 0x698098d8, 7);
    assert Quad(d, a, b, c) == Operations(op, h, input, 9);
    d := op.mix(d, op.f1(a, b, c), a, input[9], 0x8b44f7af, 12);
    assert Quad(c, d, a, b) == Operations(op, h, input, 10);
    c := op.mix(c, op.f1(d, a, b), d, input[10], 0xffff5bb1, 17);
    assert Quad(b, c, d, a) == Operations(op, h, input, 11);
    b := op.mix(b, op.f1(c, d, a), c, input[11], 0x895cd7be, 22);
    assert Quad(a, b, c, d) == Operations(op, h, input, 12);
    a := op.mix(a, op.f1(b, c, d), b, input[12], 0x6b901122, 7);
    assert Quad(d, a, b, c) == Operations(op, h, input, 13);
    d := op.mix(d, op.f1(a, b, c), a, input[13], 0xfd987193, 12);
    assert Quad(c, d, a, b) == Operations(op, h, input, 14);
    c := op.mix(c, op.f1(d, a, b), d, input[14], 0xa679438e, 17);
    assert Quad(b, c, d, a) == Operations(op, h, input, 15);
    b := op.mix(b, op.f1(c, d, a), c, input[15], 0x49b40821, 22);
    r := Quad(a, b, c, d);
  }

  /** Round 2: operations 16 to 31. */
  method Round2<W>(op: Scheme<W>, ghost h: Quad<W>, g: Quad<W>, input: seq<W>) returns (r: Quad<W>)
    requires |input| == 16 && g == Operations(op, h, input, 16)
    ensures r == Operations(op, h, input, 32)
  {
    var a, b, c, d := g.a, g.b, g.c, g.d;
    a := op.mix(a, op.f2(b, c, d), b, input[1], 0xf61e2562, 5);
    assert Quad(d, a, b, c) == Operations(op, h, input, 17);
    d := op.mix(d, op.f2(a, b, c), a, input[6], 0xc040b340, 9);
    assert Quad(c, d, a, b) == Operations(op, h, input, 18);
    c := op.mix(c, op.f2(d, a, b), d, input[11], 0x265e5a51, 14);
    assert Quad(b, c, d, a) == Operations(op, h, input, 19);
    b := op.mix(b, op.f2(c, d, a), c, input[0], 0xe9b6c7aa, 20);
    assert Quad(a, b, c, d) == Operations(op, h, input, 20);
    a := op.mix(a, op.f2(b, c, d), b, input[5], 0xd62f105d, 5);
    assert Quad(d, a, b, c) == Operations(op, h, input, 21);
    d := op.mix(d, op.f2(a, b, c), a, input[10], 0x02441453, 9);
    assert Quad(c, d, a, b) == Operations(op, h, input, 22);
    c := op.mix(c, op.f2(d, a, b), d, input[15], 0xd8a1e681, 14);
    assert Quad(b, c, d, a) == Operations(op, h, input, 23);
    b := op.mix(b, op.f2(c, d, a), c, input[4], 0xe7d3fbc8, 20);
    assert Quad(a, b, c, d) == Operations(op, h, input, 24);
    a := op.mix(a, op.f2(b, c, d), b, input[9], 0x21e1cde6, 5);
    assert Quad(d, a, b, c) == Operations(op, h, input, 25);
    d := op.mix(d, op.f2(a, b, c), a, input[14], 0xc33707d6, 9);
    assert Quad(c, d, a, b) == Operations(op, h, input, 26);
    c := op.mix(c, op.f2(d, a, b), d, input[3], 0xf4d50d87, 14);
    assert Quad(b, c, d, a) == Operations(op, h, input, 27);
    b := op.mix(b, op.f2(c, d, a), c, input[8], 0x455a14ed, 20);
    assert Quad(a, b, c, d) == Operations(op, h, input, 28);
    a := op.mix(a, op.f2(b, c, d), b, input[13], 0xa9e3e905, 5);
    assert Quad(d, a, b, c) == Operations(op, h, input, 29);
    d := op.mix(d, op.f2(a, b, c), a, input[2], 0xfcefa3f8, 9);
    assert Quad(c, d, a, b) == Operations(op, h, input, 30);
    c := op.mix(c, op.f2(d, a, b), d, input[7], 0x676f02d9, 14);
    assert Quad(b, c, d, a) == Operations(op, h, input, 31);
    b := op.mix(b, op.f2(c, d, a), c, input[12], 0x8d2a4c8a, 20);
    r := Quad(a, b, c, d);
  }

  /** Round 3: operations 32 to 47. */
  method Round3<W>(op: Scheme<W>, ghost h: Quad<W>, g: Quad<W>, input: seq<W>) returns (r: Quad<W>)
    requires |input| == 16 && g == Operations(op, h, input, 32)
    ensures r == Operations(op, h, input, 48)
  {
    var a, b, c, d := g.a, g.b, g.c, g.d;
    a := op.mix(a, op.f3(b, c, d), b, input[5], 0xfffa3942, 4);
    assert Quad(d, a, b, c) == Operations(op, h, input, 33);
    d := op.mix(d, op.f3(a, b, c), a, input[8], 0x8771f681, 11);
    assert Quad(c, d, a, b) == Operations(op, h, input, 34);
    c := op.mix(c, op.f3(d, a, b), d, input[11], 0x6d9d6122, 16);
    assert Quad(b, c, d, a) == Operations(op, h, input, 35);
    b := op.mix(b, op.f3(c, d, a), c, input[14], 0xfde5380c, 23);
    assert Quad(a, b, c, d) == Operations(op, h, input, 36);
    a := op.mix(a, op.f3(b, c, d), b, input[1], 0xa4beea44, 4);
    assert Quad(d, a, b, c) == Operations(op, h, input, 37);
    d := op.mix(d, op.f3(a, b, c), a, input[4], 0x4bdecfa9, 11);
    assert Quad(c, d, a, b) == Operations(op, h, input, 38);
    c := op.mix(c, op.f3(d, a, b), d, input[7], 0xf6bb4b60, 16);
    assert Quad(b, c, d, a) == Operations(op, h, input, 39);
    b := op.mix(b, op.f3(c, d, a), c, input[10], 0xbebfbc70, 23);
    assert Quad(a, b, c, d) == Operations(op, h, input, 40);
    a := op.mix(a, op.f3(b, c, d), b, input[13], 0x289b7ec6, 4);
    assert Quad(d, a, b, c) == Operations(op, h, input, 41);
    d := op.mix(d, op.f3(a, b, c), a, input[0], 0xeaa127fa, 11);
    assert Quad(c, d, a, b) == Operations(op, h, input, 42);
    c := op.mix(c, op.f3(d, a, b), d, input[3], 0xd4ef3085, 16);
    assert Quad(b, c, d, a) == Operations(op, h, input, 43);
    b := op.mix(b, op.f3(c, d, a), c, input[6], 0x04881d05, 23);
    assert Quad(a, b, c, d) == Operations(op, h, input, 44);
    a := op.mix(a, op.f3(b, c, d), b, input[9], 0xd9d4d039, 4);
    assert Quad(d, a, b, c) == Operations(op, h, input, 45);
    d := op.mix(d, op.f3(a, b, c), a, input[12], 0xe6db99e5, 11);
    assert Quad(c, d, a, b) == Operations(op, h, input, 46);
    c := op.mix(c, op.f3(d, a, b), d, input[15], 0x1fa27cf8, 16);
    assert Quad(b, c, d, a) == Operations(op, h, input, 47);
    b := op.mix(b, op.f3(c, d, a), c, input[2], 0xc4ac5665, 23);
    r := Quad(a, b, c, d);
  }

  /** Round 4: operations 48 to 63. */
  method Round4<W>(op: Scheme<W>, ghost h: Quad<W>, g: Quad<W>, input: seq<W>) returns (r: Quad<W>)
    requires |input| == 16 && g == Operations(op, h, input, 48)
    ensures r == Operations(op, h, input, 64)
  {
    var a, b, c, d := g.a, g.b, g.c, g.d;
    a := op.mix(a, op.f4(b, c, d), b, input[0], 0xf4292244, 6);
    assert Quad(d, a, b, c) == Operations(op, h, input, 49);
    d := op.mix(d, op.f4(a, b, c), a, input[7], 0x432aff97, 10);
    assert Quad(c, d, a, b) == Operations(op, h, input, 50);
    c := op.mix(c, op.f4(d, a, b), d, input[14], 0xab9423a7, 15);
    assert Quad(b, c, d, a) == Operations(op, h, input, 51);
    b := op.mix(b, op.f4(c, d, a), c, input[5], 0xfc93a039, 21);
    assert Quad(a, b, c, d) == Operations(op, h, input, 52);
    a := op.mix(a, op.f4(b, c, d), b, input[12], 0x655b59c3, 6);
    assert Quad(d, a, b, c) == Operations(op, h, input, 53);
    d := op.mix(d, op.f4(a, b, c), a, input[3], 0x8f0ccc92, 10);
    assert Quad(c, d, a, b) == Operations(op, h, input, 54);
    c := op.mix(c, op.f4(d, a, b), d, input[10], 0xffeff47d, 15);
    assert Quad(b, c, d, a) == Operations(op, h, input, 55);
    b := op.mix(b, op.f4(c, d, a), c, input[1], 0x85845dd1, 21);
    assert Quad(a, b, c, d) == Operations(op, h, input, 56);
    a := op.mix(a, op.f4(b, c, d), b, input[8], 0x6fa87e4f, 6);
    assert Quad(d, a, b, c) == Operations(op, h, input, 57);
    d := op.mix(d, op.f4(a, b, c), a, input[15], 0xfe2ce6e0, 10);
    assert Quad(c, d, a, b) == Operations(op, h, input, 58);
    c := op.mix(c, op.f4(d, a, b), d, input[6], 0xa3014314, 15);
    assert Quad(b, c, d, a) == Operations(op, h, input, 59);
    b := op.mix(b, op.f4(c, d, a), c, input[13], 0x4e0811a1, 21);
    assert Quad(a, b, c, d) == Operations(op, h, input, 60);
    a := op.mix(a, op.f4(b, c, d), b, input[4], 0xf7537e82, 6);
    assert Quad(d, a, b, c) == Operations(op, h, input, 61);
    d := op.mix(d, op.f4(a, b, c), a, input[11], 0xbd3af235, 10);
    assert Quad(c, d, a, b) == Operations(op, h, input, 62);
    c := op.mix(c, op.f4(d, a, b), d, input[2], 0x2ad7d2bb, 15);
    assert Quad(b, c, d, a) == Operations(op, h, input, 63);
    b := op.mix(b, op.f4(c, d, a), c, input[9], 0xeb86d391, 21);
    r := Quad(a, b, c, d);
  }
}
