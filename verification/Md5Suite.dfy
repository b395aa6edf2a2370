/** A digest of the test suite in section A.5 of RFC 1321, from the letters and digits to its sixteen bytes: the tables,
    the order of words and registers, padding and byte order are those that give it. */
module Md5Suite {
  import opened CInt
  import opened Md5Operation
  import opened Md5Rounds
  import opened Md5Blocks
  import opened Md5Rfc

  /** ABCDEFGHIJKLMNOPQRSTUVWXYZabcdefghijklmnopqrstuvwxyz0123456789 */
  function LettersAndDigits(): (r: seq<Byte>)
    ensures |r| == 62
  {
    seq(26, i requires 0 <= i < 26 => 65 + i) + seq(26, i requires 0 <= i < 26 => 97 + i)
    + seq(10, i requires 0 <= i < 10 => 48 + i)
  }

  // Operations, four at a time.

  function Value(n: nat, x: Word, y: Word, z: Word): Word {
    if n < 16 then F(x, y, z) else if n < 32 then G(x, y, z) else if n < 48 then H(x, y, z) else I(x, y, z)
  }

  /** What operation n makes of register w, the others being x, y and z. */
  function One(words: seq<Word>, n: nat, w: Word, x: Word, y: Word, z: Word): Word
    requires |words| == 16 && n < 64
  {
    Mix(w, Value(n, x, y, z), x, words[WordOf(n)], T(n), ShiftOf(n))
  }

  lemma OneIs(words: seq<Word>, n: nat, w: Word, x: Word, y: Word, z: Word, word: Word, t: Word, s: Shift, r: Word)
    requires |words| == 16 && n < 64 && words[WordOf(n)] == word && T(n) == t && ShiftOf(n) == s
    requires Mix(w, Value(n, x, y, z), x, word, t, s) == r
    ensures One(words, n, w, x, y, z) == r
  {
  }

  /** The four operations from operation n on take registers g to r. */
  predicate Four(words: seq<Word>, n: nat, g: Registers, r: Registers)
    requires |words| == 16 && n + 3 < 64
  {
    && r.a == One(words, n, g.a, g.b, g.c, g.d) && r.d == One(words, n + 1, g.d, r.a, g.b, g.c)
    && r.c == One(words, n + 2, g.c, r.d, r.a, g.b) && r.b == One(words, n + 3, g.b, r.c, r.d, r.a)
  }

  lemma StandardValue(n: nat, x: Word, y: Word, z: Word)
    ensures FunctionOf(Standard(), n)(x, y, z) == Value(n, x, y, z)
  {
  }

  lemma StandardMix(w: Word, v: Word, x: Word, word: Word, t: Word, s: Shift)
    ensures Standard().mix(w, v, x, word, t, s) == Mix(w, v, x, word, t, s)
  {
  }

  lemma OneOperation(h: Registers, words: seq<Word>, n: nat, g: Registers)
    requires |words| == 16 && n < 64 && Operations(Standard(), h, words, n) == g
    ensures Operations(Standard(), h, words, n + 1) == Quad(g.d, One(words, n, g.a, g.b, g.c, g.d), g.b, g.c)
  {
    StandardValue(n, g.b, g.c, g.d);
    StandardMix(g.a, Value(n, g.b, g.c, g.d), g.b, words[WordOf(n)], T(n), ShiftOf(n));
  }

  lemma FourOperations(h: Registers, words: seq<Word>, n: nat, g: Registers, r: Registers)
    requires |words| == 16 && n + 3 < 64 && Operations(Standard(), h, words, n) == g && Four(words, n, g, r)
    ensures Operations(Standard(), h, words, n + 4) == r
  {
    OneOperation(h, words, n, g);
    OneOperation(h, words, n + 1, Quad(g.d, r.a, g.b, g.c));
    OneOperation(h, words, n + 2, Quad(g.c, r.d, r.a, g.b));
    OneOperation(h, words, n + 3, Quad(g.b, r.c, r.d, r.a));
  }

  // The first block.

  predicate IsFirst(words: seq<Word>) {
    && |words| == 16
    && words[0] == 0x44434241 && words[1] == 0x48474645 && words[2] == 0x4c4b4a49 && words[3] == 0x504f4e4d
    && words[4] == 0x54535251 && words[5] == 0x58575655 && words[6] == 0x62615a59 && words[7] == 0x66656463
    && words[8] == 0x6a696867 && words[9] == 0x6e6d6c6b && words[10] == 0x7271706f && words[11] == 0x76757473
    && words[12] == 0x7a797877 && words[13] == 0x33323130 && words[14] == 0x37363534 && words[15] == 0x00803938
  }

  lemma First0(words: seq<Word>)
    requires IsFirst(words)
    ensures Four(words, 0, Quad(0x67452301, 0xefcdab89, 0x98badcfe, 0x10325476),
                 Quad(0xc6c10796, 0x27bce07a, 0x11067980, 0x99a09999))
  {
    OneIs(words, 0, 0x67452301, 0xefcdab89, 0x98badcfe, 0x10325476, 0x44434241, 0xd76aa478, 7, 0xc6c10796);
    OneIs(words, 1, 0x10325476, 0xc6c10796, 0xefcdab89, 0x98badcfe, 0x48474645, 0xe8c7b756, 12, 0x99a09999);
    OneIs(words, 2, 0x98badcfe, 0x99a09999, 0xc6c10796, 0xefcdab89, 0x4c4b4a49, 0x242070db, 17, 0x11067980);
    OneIs(words, 3, 0xefcdab89, 0x11067980, 0x99a09999, 0xc6c10796, 0x504f4e4d, 0xc1bdceee, 22, 0x27bce07a);
  }

  lemma First4(words: seq<Word>)
    requires IsFirst(words)
    ensures Four(words, 4, Quad(0xc6c10796, 0x27bce07a, 0x11067980, 0x99a09999),
                 Quad(0xf22e6c4e, 0xa4799506, 0xa95a2fc0, 0xb4ac9218))
  {
    OneIs(words, 4, 0xc6c10796, 0x27bce07a, 0x11067980, 0x99a09999, 0x54535251, 0xf57c0faf, 7, 0xf22e6c4e);
    OneIs(words, 5, 0x99a09999, 0xf22e6c4e, 0x27bce07a, 0x11067980, 0x58575655, 0x4787c62a, 12, 0xb4ac9218);
    OneIs(words, 6, 0x11067980, 0xb4ac9218, 0xf22e6c4e, 0x27bce07a, 0x62615a59, 0xa8304613, 17, 0xa95a2fc0);
    OneIs(words, 7, 0x27bce07a, 0xa95a2fc0, 0xb4ac9218, 0xf22e6c4e, 0x66656463, 0xfd469501, 22, 0xa4799506);
  }

  lemma First8(words: seq<Word>)
    requires IsFirst(words)
    ensures Four(words, 8, Quad(0xf22e6c4e, 0xa4799506, 0xa95a2fc0, 0xb4ac9218),
                 Quad(0x1eb3e7c1, 0x8a7612ec, 0xca27520b, 0xa6e70cfe))
  {
    OneIs(words, 8, 0xf22e6c4e, 0xa4799506, 0xa95a2fc0, 0xb4ac9218, 0x6a696867, 0x698098d8, 7, 0x1eb3e7c1);
    OneIs(words, 9, 0xb4ac9218, 0x1eb3e7c1, 0xa4799506, 0xa95a2fc0, 0x6e6d6c6b, 0x8b44f7af, 12, 0xa6e70cfe);
    OneIs(words, 10, 0xa95a2fc0, 0xa6e70cfe, 0x1eb3e7c1, 0xa4799506, 0x7271706f, 0xffff5bb1, 17, 0xca27520b);
    OneIs(words, 11, 0xa4799506, 0xca27520b, 0xa6e70cfe, 0x1eb3e7c1, 0x76757473, 0x895cd7be, 22, 0x8a7612ec);
  }

  lemma First12(words: seq<Word>)
    requires IsFirst(words)
    ensures Four(words, 12, Quad(0x1eb3e7c1, 0x8a7612ec, 0xca27520b, 0xa6e70cfe),
                 Quad(0x3cbdcd45, 0x5d38e690, 0xfa148c8a, 0xb8dec763))
  {
    OneIs(words, 12, 0x1eb3e7c1, 0x8a7612ec, 0xca27520b, 0xa6e70cfe, 0x7a797877, 0x6b901122, 7, 0x3cbdcd45);
    OneIs(words, 13, 0xa6e70cfe, 0x3cbdcd45, 0x8a7612ec, 0xca27520b, 0x33323130, 0xfd987193, 12, 0xb8dec763);
    OneIs(words, 14, 0xca27520b, 0xb8dec763, 0x3cbdcd45, 0x8a7612ec, 0x37363534, 0xa679438e, 17, 0xfa148c8a);
    OneIs(words, 15, 0x8a7612ec, 0xfa148c8a, 0xb8dec763, 0x3cbdcd45, 0x00803938, 0x49b40821, 22, 0x5d38e690);
  }

  lemma First16(words: seq<Word>)
    requires IsFirst(words)
    ensures Four(words, 16, Quad(0x3cbdcd45, 0x5d38e690, 0xfa148c8a, 0xb8dec763),
                 Quad(0x04b9d52a, 0x47ae7c81, 0xd3ee3ed1, 0x783002eb))
  {
    OneIs(words, 16, 0x3cbdcd45, 0x5d38e690, 0xfa148c8a, 0xb8dec763, 0x48474645, 0xf61e2562, 5, 0x04b9d52a);
    OneIs(words, 17, 0xb8dec763, 0x04b9d52a, 0x5d38e690, 0xfa148c8a, 0x62615a59, 0xc040b340, 9, 0x783002eb);
    OneIs(words, 18, 0xfa148c8a, 0x783002eb, 0x04b9d52a, 0x5d38e690, 0x76757473, 0x265e5a51, 14, 0xd3ee3ed1);
    OneIs(words, 19, 0x5d38e690, 0xd3ee3ed1, 0x783002eb, 0x04b9d52a, 0x44434241, 0xe9b6c7aa, 20, 0x47ae7c81);
  }

  lemma First20(words: seq<Word>)
    requires IsFirst(words)
    ensures Four(words, 20, Quad(0x04b9d52a, 0x47ae7c81, 0xd3ee3ed1, 0x783002eb),
                 Quad(0x2d7d8a3f, 0x75292030, 0x4b534dc3, 0xd1210823))
  {
    OneIs(words, 20, 0x04b9d52a, 0x47ae7c81, 0xd3ee3ed1, 0x783002eb, 0x58575655, 0xd62f105d, 5, 0x2d7d8a3f);
    OneIs(words, 21, 0x783002eb, 0x2d7d8a3f, 0x47ae7c81, 0xd3ee3ed1, 0x7271706f, 0x02441453, 9, 0xd1210823);
    OneIs(words, 22, 0xd3ee3ed1, 0xd1210823, 0x2d7d8a3f, 0x47ae7c81, 0x00803938, 0xd8a1e681, 14, 0x4b534dc3);
    OneIs(words, 23, 0x47ae7c81, 0x4b534dc3, 0xd1210823, 0x2d7d8a3f, 0x54535251, 0xe7d3fbc8, 20, 0x75292030);
  }

  lemma First24(words: seq<Word>)
    requires IsFirst(words)
    ensures Four(words, 24, Quad(0x2d7d8a3f, 0x75292030, 0x4b534dc3, 0xd1210823),
                 Quad(0x9d2a6e33, 0xf2ff6ea0, 0xd473b564, 0x0e8d2e44))
  {
    OneIs(words, 24, 0x2d7d8a3f, 0x75292030, 0x4b534dc3, 0xd1210823, 0x6e6d6c6b, 0x21e1cde6, 5, 0x9d2a6e33);
    OneIs(words, 25, 0xd1210823, 0x9d2a6e33, 0x75292030, 0x4b534dc3, 0x37363534, 0xc33707d6, 9, 0x0e8d2e44);
    OneIs(words, 26, 0x4b534dc3, 0x0e8d2e44, 0x9d2a6e33, 0x75292030, 0x504f4e4d, 0xf4d50d87, 14, 0xd473b564);
    OneIs(words, 27, 0x75292030, 0xd473b564, 0x0e8d2e44, 0x9d2a6e33, 0x6a696867, 0x455a14ed, 20, 0xf2ff6ea0);
  }

  lemma First28(words: seq<Word>)
    requires IsFirst(words)
    ensures Four(words, 28, Quad(0x9d2a6e33, 0xf2ff6ea0, 0xd473b564, 0x0e8d2e44),
                 Quad(0x9b085fa9, 0xdd789ecc, 0x5993248f, 0x4400a9bd))
  {
    OneIs(words, 28, 0x9d2a6e33, 0xf2ff6ea0, 0xd473b564, 0x0e8d2e44, 0x33323130, 0xa9e3e905, 5, 0x9b085fa9);
    OneIs(words, 29, 0x0e8d2e44, 0x9b085fa9, 0xf2ff6ea0, 0xd473b564, 0x4c4b4a49, 0xfcefa3f8, 9, 0x4400a9bd);
    OneIs(words, 30, 0xd473b564, 0x4400a9bd, 0x9b085fa9, 0xf2ff6ea0, 0x66656463, 0x676f02d9, 14, 0x5993248f);
    OneIs(words, 31, 0xf2ff6ea0, 0x5993248f, 0x4400a9bd, 0x9b085fa9, 0x7a797877, 0x8d2a4c8a, 20, 0xdd789ecc);
  }

  lemma First32(words: seq<Word>)
    requires IsFirst(words)
    ensures Four(words, 32, Quad(0x9b085fa9, 0xdd789ecc, 0x5993248f, 0x4400a9bd),
                 Quad(0x21c8d2b7, 0x1b9504f8, 0x056ec119, 0x1d55a18e))
  {
    OneIs(words, 32, 0x9b085fa9, 0xdd789ecc, 0x5993248f, 0x4400a9bd, 0x58575655, 0xfffa3942, 4, 0x21c8d2b7);
    OneIs(words, 33, 0x4400a9bd, 0x21c8d2b7, 0xdd789ecc, 0x5993248f, 0x6a696867, 0x8771f681, 11, 0x1d55a18e);
    OneIs(words, 34, 0x5993248f, 0x1d55a18e, 0x21c8d2b7, 0xdd789ecc, 0x76757473, 0x6d9d6122, 16, 0x056ec119);
    OneIs(words, 35, 0xdd789ecc, 0x056ec119, 0x1d55a18e, 0x21c8d2b7, 0x37363534, 0xfde5380c, 23, 0x1b9504f8);
  }

  lemma First36(words: seq<Word>)
    requires IsFirst(words)
    ensures Four(words, 36, Quad(0x21c8d2b7, 0x1b9504f8, 0x056ec119, 0x1d55a18e),
                 Quad(0x436b7fe9, 0xcf0341ed, 0xf404c2f6, 0x075800c1))
  {
    OneIs(words, 36, 0x21c8d2b7, 0x1b9504f8, 0x056ec119, 0x1d55a18e, 0x48474645, 0xa4beea44, 4, 0x436b7fe9);
    OneIs(words, 37, 0x1d55a18e, 0x436b7fe9, 0x1b9504f8, 0x056ec119, 0x54535251, 0x4bdecfa9, 11, 0x075800c1);
    OneIs(words, 38, 0x056ec119, 0x075800c1, 0x436b7fe9, 0x1b9504f8, 0x66656463, 0xf6bb4b60, 16, 0xf404c2f6);
    OneIs(words, 39, 0x1b9504f8, 0xf404c2f6, 0x075800c1, 0x436b7fe9, 0x7271706f, 0xbebfbc70, 23, 0xcf0341ed);
  }

  lemma First40(words: seq<Word>)
    requires IsFirst(words)
    ensures Four(words, 40, Quad(0x436b7fe9, 0xcf0341ed, 0xf404c2f6, 0x075800c1),
                 Quad(0x888e7d8a, 0x047b9419, 0xce620273, 0xbbdaecd8))
  {
    OneIs(words, 40, 0x436b7fe9, 0xcf0341ed, 0xf404c2f6, 0x075800c1, 0x33323130, 0x289b7ec6, 4, 0x888e7d8a);
    OneIs(words, 41, 0x075800c1, 0x888e7d8a, 0xcf0341ed, 0xf404c2f6, 0x44434241, 0xeaa127fa, 11, 0xbbdaecd8);
    OneIs(words, 42, 0xf404c2f6, 0xbbdaecd8, 0x888e7d8a, 0xcf0341ed, 0x504f4e4d, 0xd4ef3085, 16, 0xce620273);
    OneIs(words, 43, 0xcf0341ed, 0xce620273, 0xbbdaecd8, 0x888e7d8a, 0x62615a59, 0x04881d05, 23, 0x047b9419);
  }

  lemma First44(words: seq<Word>)
    requires IsFirst(words)
    ensures Four(words, 44, Quad(0x888e7d8a, 0x047b9419, 0xce620273, 0xbbdaecd8),
                 Quad(0x2dbee21d, 0xf166f514, 0xee46e961, 0xe95c3a43))
  {
    OneIs(words, 44, 0x888e7d8a, 0x047b9419, 0xce620273, 0xbbdaecd8, 0x6e6d6c6b, 0xd9d4d039, 4, 0x2dbee21d);
    OneIs(words, 45, 0xbbdaecd8, 0x2dbee21d, 0x047b9419, 0xce620273, 0x7a797877, 0xe6db99e5, 11, 0xe95c3a43);
    OneIs(words, 46, 0xce620273, 0xe95c3a43, 0x2dbee21d, 0x047b9419, 0x00803938, 0x1fa27cf8, 16, 0xee46e961);
    OneIs(words, 47, 0x047b9419, 0xee46e961, 0xe95c3a43, 0x2dbee21d, 0x4c4b4a49, 0xc4ac5665, 23, 0xf166f514);
  }

  lemma First48(words: seq<Word>)
    requires IsFirst(words)
    ensures Four(words, 48, Quad(0x2dbee21d, 0xf166f514, 0xee46e961, 0xe95c3a43),
                 Quad(0xe47fd4f3, 0x7a13bc5c, 0xf22aedcc, 0xfb887751))
  {
    OneIs(words, 48, 0x2dbee21d, 0xf166f514, 0xee46e961, 0xe95c3a43, 0x44434241, 0xf4292244, 6, 0xe47fd4f3);
    OneIs(words, 49, 0xe95c3a43, 0xe47fd4f3, 0xf166f514, 0xee46e961, 0x66656463, 0x432aff97, 10, 0xfb887751);
    OneIs(words, 50, 0xee46e961, 0xfb887751, 0xe47fd4f3, 0xf166f514, 0x37363534, 0xab9423a7, 15, 0xf22aedcc);
    OneIs(words, 51, 0xf166f514, 0xf22aedcc, 0xfb887751, 0xe47fd4f3, 0x58575655, 0xfc93a039, 21, 0x7a13bc5c);
  }

  lemma First52(words: seq<Word>)
    requires IsFirst(words)
    ensures Four(words, 52, Quad(0xe47fd4f3, 0x7a13bc5c, 0xf22aedcc, 0xfb887751),
                 Quad(0xa691d430, 0xefb0e72f, 0x3fc23df6, 0x528452f2))
  {
    OneIs(words, 52, 0xe47fd4f3, 0x7a13bc5c, 0xf22aedcc, 0xfb887751, 0x7a797877, 0x655b59c3, 6, 0xa691d430);
    OneIs(words, 53, 0xfb887751, 0xa691d430, 0x7a13bc5c, 0xf22aedcc, 0x504f4e4d, 0x8f0ccc92, 10, 0x528452f2);
    OneIs(words, 54, 0xf22aedcc, 0x528452f2, 0xa691d430, 0x7a13bc5c, 0x7271706f, 0xffeff47d, 15, 0x3fc23df6);
    OneIs(words, 55, 0x7a13bc5c, 0x3fc23df6, 0x528452f2, 0xa691d430, 0x48474645, 0x85845dd1, 21, 0xefb0e72f);
  }

  lemma First56(words: seq<Word>)
    requires IsFirst(words)
    ensures Four(words, 56, Quad(0xa691d430, 0xefb0e72f, 0x3fc23df6, 0x528452f2),
                 Quad(0x27145703, 0x49d9a5b4, 0x374fbe79, 0x21a11069))
  {
    OneIs(words, 56, 0xa691d430, 0xefb0e72f, 0x3fc23df6, 0x528452f2, 0x6a696867, 0x6fa87e4f, 6, 0x27145703);
    OneIs(words, 57, 0x528452f2, 0x27145703, 0xefb0e72f, 0x3fc23df6, 0x00803938, 0xfe2ce6e0, 10, 0x21a11069);
    OneIs(words, 58, 0x3fc23df6, 0x21a11069, 0x27145703, 0xefb0e72f, 0x62615a59, 0xa3014314, 15, 0x374fbe79);
    OneIs(words, 59, 0xefb0e72f, 0x374fbe79, 0x21a11069, 0x27145703, 0x33323130, 0x4e0811a1, 21, 0x49d9a5b4);
  }

  lemma First60(words: seq<Word>)
    requires IsFirst(words)
    ensures Four(words, 60, Quad(0x27145703, 0x49d9a5b4, 0x374fbe79, 0x21a11069),
                 Quad(0x1cb80f0a, 0xef2e3a46, 0x10f68731, 0xea3d3eb4))
  {
    OneIs(words, 60, 0x27145703, 0x49d9a5b4, 0x374fbe79, 0x21a11069, 0x54535251, 0xf7537e82, 6, 0x1cb80f0a);
    OneIs(words, 61, 0x21a11069, 0x1cb80f0a, 0x49d9a5b4, 0x374fbe79, 0x76757473, 0xbd3af235, 10, 0xea3d3eb4);
    OneIs(words, 62, 0x374fbe79, 0xea3d3eb4, 0x1cb80f0a, 0x49d9a5b4, 0x4c4b4a49, 0x2ad7d2bb, 15, 0x10f68731);
    OneIs(words, 63, 0x49d9a5b4, 0x10f68731, 0xea3d3eb4, 0x1cb80f0a, 0x6e6d6c6b, 0xeb86d391, 21, 0xef2e3a46);
  }

  lemma FirstRound1(h: Registers, words: seq<Word>)
    requires IsFirst(words) && Operations(Standard(), h, words, 0) == Quad(0x67452301, 0xefcdab89, 0x98badcfe, 0x10325476)
    ensures Operations(Standard(), h, words, 16) == Quad(0x3cbdcd45, 0x5d38e690, 0xfa148c8a, 0xb8dec763)
  {
    First0(words);
    FourOperations(h, words, 0, Quad(0x67452301, 0xefcdab89, 0x98badcfe, 0x10325476),
                   Quad(0xc6c10796, 0x27bce07a, 0x11067980, 0x99a09999));
    First4(words);
    FourOperations(h, words, 4, Quad(0xc6c10796, 0x27bce07a, 0x11067980, 0x99a09999),
                   Quad(0xf22e6c4e, 0xa4799506, 0xa95a2fc0, 0xb4ac9218));
    First8(words);
    FourOperations(h, words, 8, Quad(0xf22e6c4e, 0xa4799506, 0xa95a2fc0, 0xb4ac9218),
                   Quad(0x1eb3e7c1, 0x8a7612ec, 0xca27520b, 0xa6e70cfe));
    First12(words);
    FourOperations(h, words, 12, Quad(0x1eb3e7c1, 0x8a7612ec, 0xca27520b, 0xa6e70cfe),
                   Quad(0x3cbdcd45, 0x5d38e690, 0xfa148c8a, 0xb8dec763));
  }

  lemma FirstRound2(h: Registers, words: seq<Word>)
    requires IsFirst(words) && Operations(Standard(), h, words, 16) == Quad(0x3cbdcd45, 0x5d38e690, 0xfa148c8a, 0xb8dec763)
    ensures Operations(Standard(), h, words, 32) == Quad(0x9b085fa9, 0xdd789ecc, 0x5993248f, 0x4400a9bd)
  {
    First16(words);
    FourOperations(h, words, 16, Quad(0x3cbdcd45, 0x5d38e690, 0xfa148c8a, 0xb8dec763),
                   Quad(0x04b9d52a, 0x47ae7c81, 0xd3ee3ed1, 0x783002eb));
    First20(words);
    FourOperations(h, words, 20, Quad(0x04b9d52a, 0x47ae7c81, 0xd3ee3ed1, 0x783002eb),
                   Quad(0x2d7d8a3f, 0x75292030, 0x4b534dc3, 0xd1210823));
    First24(words);
    FourOperations(h, words, 24, Quad(0x2d7d8a3f, 0x75292030, 0x4b534dc3, 0xd1210823),
                   Quad(0x9d2a6e33, 0xf2ff6ea0, 0xd473b564, 0x0e8d2e44));
    First28(words);
    FourOperations(h, words, 28, Quad(0x9d2a6e33, 0xf2ff6ea0, 0xd473b564, 0x0e8d2e44),
                   Quad(0x9b085fa9, 0xdd789ecc, 0x5993248f, 0x4400a9bd));
  }

  lemma FirstRound3(h: Registers, words: seq<Word>)
    requires IsFirst(words) && Operations(Standard(), h, words, 32) == Quad(0x9b085fa9, 0xdd789ecc, 0x5993248f, 0x4400a9bd)
    ensures Operations(Standard(), h, words, 48) == Quad(0x2dbee21d, 0xf166f514, 0xee46e961, 0xe95c3a43)
  {
    First32(words);
    FourOperations(h, words, 32, Quad(0x9b085fa9, 0xdd789ecc, 0x5993248f, 0x4400a9bd),
                   Quad(0x21c8d2b7, 0x1b9504f8, 0x056ec119, 0x1d55a18e));
    First36(words);
    FourOperations(h, words, 36, Quad(0x21c8d2b7, 0x1b9504f8, 0x056ec119, 0x1d55a18e),
                   Quad(0x436b7fe9, 0xcf0341ed, 0xf404c2f6, 0x075800c1));
    First40(words);
    FourOperations(h, words, 40, Quad(0x436b7fe9, 0xcf0341ed, 0xf404c2f6, 0x075800c1),
                   Quad(0x888e7d8a, 0x047b9419, 0xce620273, 0xbbdaecd8));
    First44(words);
    FourOperations(h, words, 44, Quad(0x888e7d8a, 0x047b9419, 0xce620273, 0xbbdaecd8),
                   Quad(0x2dbee21d, 0xf166f514, 0xee46e961, 0xe95c3a43));
  }

  lemma FirstRound4(h: Registers, words: seq<Word>)
    requires IsFirst(words) && Operations(Standard(), h, words, 48) == Quad(0x2dbee21d, 0xf166f514, 0xee46e961, 0xe95c3a43)
    ensures Operations(Standard(), h, words, 64) == Quad(0x1cb80f0a, 0xef2e3a46, 0x10f68731, 0xea3d3eb4)
  {
    First48(words);
    FourOperations(h, words, 48, Quad(0x2dbee21d, 0xf166f514, 0xee46e961, 0xe95c3a43),
                   Quad(0xe47fd4f3, 0x7a13bc5c, 0xf22aedcc, 0xfb887751));
    First52(words);
    FourOperations(h, words, 52, Quad(0xe47fd4f3, 0x7a13bc5c, 0xf22aedcc, 0xfb887751),
                   Quad(0xa691d430, 0xefb0e72f, 0x3fc23df6, 0x528452f2));
    First56(words);
    FourOperations(h, words, 56, Quad(0xa691d430, 0xefb0e72f, 0x3fc23df6, 0x528452f2),
                   Quad(0x27145703, 0x49d9a5b4, 0x374fbe79, 0x21a11069));
    First60(words);
    FourOperations(h, words, 60, Quad(0x27145703, 0x49d9a5b4, 0x374fbe79, 0x21a11069),
                   Quad(0x1cb80f0a, 0xef2e3a46, 0x10f68731, 0xea3d3eb4));
  }

  lemma FirstBlock(h: Registers, words: seq<Word>)
    requires IsFirst(words) && h == Quad(0x67452301, 0xefcdab89, 0x98badcfe, 0x10325476)
    ensures Operations(Standard(), h, words, 64) == Quad(0x1cb80f0a, 0xef2e3a46, 0x10f68731, 0xea3d3eb4)
  {
    FirstRound1(h, words);
    FirstRound2(h, words);
    FirstRound3(h, words);
    FirstRound4(h, words);
  }

  // The second block.

  predicate IsSecond(words: seq<Word>) {
    && |words| == 16
    && words[0] == 0x00000000 && words[1] == 0x00000000 && words[2] == 0x00000000 && words[3] == 0x00000000
    && words[4] == 0x00000000 && words[5] == 0x00000000 && words[6] == 0x00000000 && words[7] == 0x00000000
    && words[8] == 0x00000000 && words[9] == 0x00000000 && words[10] == 0x00000000 && words[11] == 0x00000000
    && words[12] == 0x00000000 && words[13] == 0x00000000 && words[14] == 0x000001f0 && words[15] == 0x00000000
  }

  lemma Second0(words: seq<Word>)
    requires IsSecond(words)
    ensures Four(words, 0, Quad(0x83fd320b, 0xdefbe5cf, 0xa9b1642f, 0xfa6f932a),
                 Quad(0xeda23ed1, 0xddcf0634, 0x3c307338, 0x989939cf))
  {
    OneIs(words, 0, 0x83fd320b, 0xdefbe5cf, 0xa9b1642f, 0xfa6f932a, 0x00000000, 0xd76aa478, 7, 0xeda23ed1);
    OneIs(words, 1, 0xfa6f932a, 0xeda23ed1, 0xdefbe5cf, 0xa9b1642f, 0x00000000, 0xe8c7b756, 12, 0x989939cf);
    OneIs(words, 2, 0xa9b1642f, 0x989939cf, 0xeda23ed1, 0xdefbe5cf, 0x00000000, 0x242070db, 17, 0x3c307338);
    OneIs(words, 3, 0xdefbe5cf, 0x3c307338, 0x989939cf, 0xeda23ed1, 0x00000000, 0xc1bdceee, 22, 0xddcf0634);
  }

  lemma Second4(words: seq<Word>)
    requires IsSecond(words)
    ensures Four(words, 4, Quad(0xeda23ed1, 0xddcf0634, 0x3c307338, 0x989939cf),
                 Quad(0x75144433, 0x99b6b699, 0xc783cb60, 0xc8875807))
  {
    OneIs(words, 4, 0xeda23ed1, 0xddcf0634, 0x3c307338, 0x989939cf, 0x00000000, 0xf57c0faf, 7, 0x75144433);
    OneIs(words, 5, 0x989939cf, 0x75144433, 0xddcf0634, 0x3c307338, 0x00000000, 0x4787c62a, 12, 0xc8875807);
    OneIs(words, 6, 0x3c307338, 0xc8875807, 0x75144433, 0xddcf0634, 0x00000000, 0xa8304613, 17, 0xc783cb60);
    OneIs(words, 7, 0xddcf0634, 0xc783cb60, 0xc8875807, 0x75144433, 0x00000000, 0xfd469501, 22, 0x99b6b699);
  }

  lemma Second8(words: seq<Word>)
    requires IsSecond(words)
    ensures Four(words, 8, Quad(0x75144433, 0x99b6b699, 0xc783cb60, 0xc8875807),
                 Quad(0xa60a3f69, 0x64cc7c5a, 0x64db26e9, 0xaa6630be))
  {
    OneIs(words, 8, 0x75144433, 0x99b6b699, 0xc783cb60, 0xc8875807, 0x00000000, 0x698098d8, 7, 0xa60a3f69);
    OneIs(words, 9, 0xc8875807, 0xa60a3f69, 0x99b6b699, 0xc783cb60, 0x00000000, 0x8b44f7af, 12, 0xaa6630be);
    OneIs(words, 10, 0xc783cb60, 0xaa6630be, 0xa60a3f69, 0x99b6b699, 0x00000000, 0xffff5bb1, 17, 0x64db26e9);
    OneIs(words, 11, 0x99b6b699, 0x64db26e9, 0xaa6630be, 0xa60a3f69, 0x00000000, 0x895cd7be, 22, 0x64cc7c5a);
  }

  lemma Second12(words: seq<Word>)
    requires IsSecond(words)
    ensures Four(words, 12, Quad(0xa60a3f69, 0x64cc7c5a, 0x64db26e9, 0xaa6630be),
                 Quad(0xa70737da, 0xa36f556f, 0x96f6586e, 0x5473f8a7))
  {
    OneIs(words, 12, 0xa60a3f69, 0x64cc7c5a, 0x64db26e9, 0xaa6630be, 0x00000000, 0x6b901122, 7, 0xa70737da);
    OneIs(words, 13, 0xaa6630be, 0xa70737da, 0x64cc7c5a, 0x64db26e9, 0x00000000, 0xfd987193, 12, 0x5473f8a7);
    OneIs(words, 14, 0x64db26e9, 0x5473f8a7, 0xa70737da, 0x64cc7c5a, 0x000001f0, 0xa679438e, 17, 0x96f6586e);
    OneIs(words, 15, 0x64cc7c5a, 0x96f6586e, 0x5473f8a7, 0xa70737da, 0x00000000, 0x49b40821, 22, 0xa36f556f);
  }

  lemma Second16(words: seq<Word>)
    requires IsSecond(words)
    ensures Four(words, 16, Quad(0xa70737da, 0xa36f556f, 0x96f6586e, 0x5473f8a7),
                 Quad(0xa5050ad3, 0x82b8827c, 0x27dcd8b4, 0x28776046))
  {
    OneIs(words, 16, 0xa70737da, 0xa36f556f, 0x96f6586e, 0x5473f8a7, 0x00000000, 0xf61e2562, 5, 0xa5050ad3);
    OneIs(words, 17, 0x5473f8a7, 0xa5050ad3, 0xa36f556f, 0x96f6586e, 0x00000000, 0xc040b340, 9, 0x28776046);
    OneIs(words, 18, 0x96f6586e, 0x28776046, 0xa5050ad3, 0xa36f556f, 0x00000000, 0x265e5a51, 14, 0x27dcd8b4);
    OneIs(words, 19, 0xa36f556f, 0x27dcd8b4, 0x28776046, 0xa5050ad3, 0x00000000, 0xe9b6c7aa, 20, 0x82b8827c);
  }

  lemma Second20(words: seq<Word>)
    requires IsSecond(words)
    ensures Four(words, 20, Quad(0xa5050ad3, 0x82b8827c, 0x27dcd8b4, 0x28776046),
                 Quad(0xe04f070c, 0xdf35cb56, 0xc0d22b61, 0x2f3cd2a2))
  {
    OneIs(words, 20, 0xa5050ad3, 0x82b8827c, 0x27dcd8b4, 0x28776046, 0x00000000, 0xd62f105d, 5, 0xe04f070c);
    OneIs(words, 21, 0x28776046, 0xe04f070c, 0x82b8827c, 0x27dcd8b4, 0x00000000, 0x02441453, 9, 0x2f3cd2a2);
    OneIs(words, 22, 0x27dcd8b4, 0x2f3cd2a2, 0xe04f070c, 0x82b8827c, 0x00000000, 0xd8a1e681, 14, 0xc0d22b61);
    OneIs(words, 23, 0x82b8827c, 0xc0d22b61, 0x2f3cd2a2, 0xe04f070c, 0x00000000, 0xe7d3fbc8, 20, 0xdf35cb56);
  }

  lemma Second24(words: seq<Word>)
    requires IsSecond(words)
    ensures Four(words, 24, Quad(0xe04f070c, 0xdf35cb56, 0xc0d22b61, 0x2f3cd2a2),
                 Quad(0x242dd210, 0x2291191a, 0x5c295967, 0x576ace33))
  {
    OneIs(words, 24, 0xe04f070c, 0xdf35cb56, 0xc0d22b61, 0x2f3cd2a2, 0x00000000, 0x21e1cde6, 5, 0x242dd210);
    OneIs(words, 25, 0x2f3cd2a2, 0x242dd210, 0xdf35cb56, 0xc0d22b61, 0x000001f0, 0xc33707d6, 9, 0x576ace33);
    OneIs(words, 26, 0xc0d22b61, 0x576ace33, 0x242dd210, 0xdf35cb56, 0x00000000, 0xf4d50d87, 14, 0x5c295967);
    OneIs(words, 27, 0xdf35cb56, 0x5c295967, 0x576ace33, 0x242dd210, 0x00000000, 0x455a14ed, 20, 0x2291191a);
  }

  lemma Second28(words: seq<Word>)
    requires IsSecond(words)
    ensures Four(words, 28, Quad(0x242dd210, 0x2291191a, 0x5c295967, 0x576ace33),
                 Quad(0x24eba695, 0x9c03e2e8, 0x10c42a2f, 0x4bd0378b))
  {
    OneIs(words, 28, 0x242dd210, 0x2291191a, 0x5c295967, 0x576ace33, 0x00000000, 0xa9e3e905, 5, 0x24eba695);
    OneIs(words, 29, 0x576ace33, 0x24eba695, 0x2291191a, 0x5c295967, 0x00000000, 0xfcefa3f8, 9, 0x4bd0378b);
    OneIs(words, 30, 0x5c295967, 0x4bd0378b, 0x24eba695, 0x2291191a, 0x00000000, 0x676f02d9, 14, 0x10c42a2f);
    OneIs(words, 31, 0x2291191a, 0x10c42a2f, 0x4bd0378b, 0x24eba695, 0x00000000, 0x8d2a4c8a, 20, 0x9c03e2e8);
  }

  lemma Second32(words: seq<Word>)
    requires IsSecond(words)
    ensures Four(words, 32, Quad(0x24eba695, 0x9c03e2e8, 0x10c42a2f, 0x4bd0378b),
                 Quad(0x5be1d526, 0xa2448453, 0x9f4a1a7e, 0x9e414279))
  {
    OneIs(words, 32, 0x24eba695, 0x9c03e2e8, 0x10c42a2f, 0x4bd0378b, 0x00000000, 0xfffa3942, 4, 0x5be1d526);
    OneIs(words, 33, 0x4bd0378b, 0x5be1d526, 0x9c03e2e8, 0x10c42a2f, 0x00000000, 0x8771f681, 11, 0x9e414279);
    OneIs(words, 34, 0x10c42a2f, 0x9e414279, 0x5be1d526, 0x9c03e2e8, 0x00000000, 0x6d9d6122, 16, 0x9f4a1a7e);
    OneIs(words, 35, 0x9c03e2e8, 0x9f4a1a7e, 0x9e414279, 0x5be1d526, 0x000001f0, 0xfde5380c, 23, 0xa2448453);
  }

  lemma Second36(words: seq<Word>)
    requires IsSecond(words)
    ensures Four(words, 36, Quad(0x5be1d526, 0xa2448453, 0x9f4a1a7e, 0x9e414279),
                 Quad(0xe14e403d, 0xfe314121, 0x60cc183a, 0xe8cfd670))
  {
    OneIs(words, 36, 0x5be1d526, 0xa2448453, 0x9f4a1a7e, 0x9e414279, 0x00000000, 0xa4beea44, 4, 0xe14e403d);
    OneIs(words, 37, 0x9e414279, 0xe14e403d, 0xa2448453, 0x9f4a1a7e, 0x00000000, 0x4bdecfa9, 11, 0xe8cfd670);
    OneIs(words, 38, 0x9f4a1a7e, 0xe8cfd670, 0xe14e403d, 0xa2448453, 0x00000000, 0xf6bb4b60, 16, 0x60cc183a);
    OneIs(words, 39, 0xa2448453, 0x60cc183a, 0xe8cfd670, 0xe14e403d, 0x00000000, 0xbebfbc70, 23, 0xfe314121);
  }

  lemma Second40(words: seq<Word>)
    requires IsSecond(words)
    ensures Four(words, 40, Quad(0xe14e403d, 0xfe314121, 0x60cc183a, 0xe8cfd670),
                 Quad(0xfff62809, 0x7c7e974c, 0x8cb5221c, 0xe37209ac))
  {
    OneIs(words, 40, 0xe14e403d, 0xfe314121, 0x60cc183a, 0xe8cfd670, 0x00000000, 0x289b7ec6, 4, 0xfff62809);
    OneIs(words, 41, 0xe8cfd670, 0xfff62809, 0xfe314121, 0x60cc183a, 0x00000000, 0xeaa127fa, 11, 0xe37209ac);
    OneIs(words, 42, 0x60cc183a, 0xe37209ac, 0xfff62809, 0xfe314121, 0x00000000, 0xd4ef3085, 16, 0x8cb5221c);
    OneIs(words, 43, 0xfe314121, 0x8cb5221c, 0xe37209ac, 0xfff62809, 0x00000000, 0x04881d05, 23, 0x7c7e974c);
  }

  lemma Second44(words: seq<Word>)
    requires IsSecond(words)
    ensures Four(words, 44, Quad(0xfff62809, 0x7c7e974c, 0x8cb5221c, 0xe37209ac),
                 Quad(0x54c9eb3a, 0x79c0710a, 0x2ec86f72, 0xd4d9c6ac))
  {
    OneIs(words, 44, 0xfff62809, 0x7c7e974c, 0x8cb5221c, 0xe37209ac, 0x00000000, 0xd9d4d039, 4, 0x54c9eb3a);
    OneIs(words, 45, 0xe37209ac, 0x54c9eb3a, 0x7c7e974c, 0x8cb5221c, 0x00000000, 0xe6db99e5, 11, 0xd4d9c6ac);
    OneIs(words, 46, 0x8cb5221c, 0xd4d9c6ac, 0x54c9eb3a, 0x7c7e974c, 0x00000000, 0x1fa27cf8, 16, 0x2ec86f72);
    OneIs(words, 47, 0x7c7e974c, 0x2ec86f72, 0xd4d9c6ac, 0x54c9eb3a, 0x00000000, 0xc4ac5665, 23, 0x79c0710a);
  }

  lemma Second48(words: seq<Word>)
    requires IsSecond(words)
    ensures Four(words, 48, Quad(0x54c9eb3a, 0x79c0710a, 0x2ec86f72, 0xd4d9c6ac),
                 Quad(0x02095af1, 0x2ba98e3f, 0xa8dcfe26, 0x13d245fd))
  {
    OneIs(words, 48, 0x54c9eb3a, 0x79c0710a, 0x2ec86f72, 0xd4d9c6ac, 0x00000000, 0xf4292244, 6, 0x02095af1);
    OneIs(words, 49, 0xd4d9c6ac, 0x02095af1, 0x79c0710a, 0x2ec86f72, 0x00000000, 0x432aff97, 10, 0x13d245fd);
    OneIs(words, 50, 0x2ec86f72, 0x13d245fd, 0x02095af1, 0x79c0710a, 0x000001f0, 0xab9423a7, 15, 0xa8dcfe26);
    OneIs(words, 51, 0x79c0710a, 0xa8dcfe26, 0x13d245fd, 0x02095af1, 0x00000000, 0xfc93a039, 21, 0x2ba98e3f);
  }

  lemma Second52(words: seq<Word>)
    requires IsSecond(words)
    ensures Four(words, 52, Quad(0x02095af1, 0x2ba98e3f, 0xa8dcfe26, 0x13d245fd),
                 Quad(0xe126c1aa, 0xfb7bcee0, 0x6f287ff5, 0x96b00fa7))
  {
    OneIs(words, 52, 0x02095af1, 0x2ba98e3f, 0xa8dcfe26, 0x13d245fd, 0x00000000, 0x655b59c3, 6, 0xe126c1aa);
    OneIs(words, 53, 0x13d245fd, 0xe126c1aa, 0x2ba98e3f, 0xa8dcfe26, 0x00000000, 0x8f0ccc92, 10, 0x96b00fa7);
    OneIs(words, 54, 0xa8dcfe26, 0x96b00fa7, 0xe126c1aa, 0x2ba98e3f, 0x00000000, 0xffeff47d, 15, 0x6f287ff5);
    OneIs(words, 55, 0x2ba98e3f, 0x6f287ff5, 0x96b00fa7, 0xe126c1aa, 0x00000000, 0x85845dd1, 21, 0xfb7bcee0);
  }

  lemma Second56(words: seq<Word>)
    requires IsSecond(words)
    ensures Four(words, 56, Quad(0xe126c1aa, 0xfb7bcee0, 0x6f287ff5, 0x96b00fa7),
                 Quad(0x452c1099, 0x5ac74608, 0xc197ea8e, 0xca801ba6))
  {
    OneIs(words, 56, 0xe126c1aa, 0xfb7bcee0, 0x6f287ff5, 0x96b00fa7, 0x00000000, 0x6fa87e4f, 6, 0x452c1099);
    OneIs(words, 57, 0x96b00fa7, 0x452c1099, 0xfb7bcee0, 0x6f287ff5, 0x00000000, 0xfe2ce6e0, 10, 0xca801ba6);
    OneIs(words, 58, 0x6f287ff5, 0xca801ba6, 0x452c1099, 0xfb7bcee0, 0x00000000, 0xa3014314, 15, 0xc197ea8e);
    OneIs(words, 59, 0xfb7bcee0, 0xc197ea8e, 0xca801ba6, 0x452c1099, 0x00000000, 0x4e0811a1, 21, 0x5ac74608);
  }

  lemma Second60(words: seq<Word>)
    requires IsSecond(words)
    ensures Four(words, 60, Quad(0x452c1099, 0x5ac74608, 0xc197ea8e, 0xca801ba6),
                 Quad(0x14ae42c6, 0x16dd9203, 0x826afd76, 0xa52dae75))
  {
    OneIs(words, 60, 0x452c1099, 0x5ac74608, 0xc197ea8e, 0xca801ba6, 0x00000000, 0xf7537e82, 6, 0x14ae42c6);
    OneIs(words, 61, 0xca801ba6, 0x14ae42c6, 0x5ac74608, 0xc197ea8e, 0x00000000, 0xbd3af235, 10, 0xa52dae75);
    OneIs(words, 62, 0xc197ea8e, 0xa52dae75, 0x14ae42c6, 0x5ac74608, 0x00000000, 0x2ad7d2bb, 15, 0x826afd76);
    OneIs(words, 63, 0x5ac74608, 0x826afd76, 0xa52dae75, 0x14ae42c6, 0x00000000, 0xeb86d391, 21, 0x16dd9203);
  }

  lemma SecondRound1(h: Registers, words: seq<Word>)
    requires IsSecond(words) && Operations(Standard(), h, words, 0) == Quad(0x83fd320b, 0xdefbe5cf, 0xa9b1642f, 0xfa6f932a)
    ensures Operations(Standard(), h, words, 16) == Quad(0xa70737da, 0xa36f556f, 0x96f6586e, 0x5473f8a7)
  {
    Second0(words);
    FourOperations(h, words, 0, Quad(0x83fd320b, 0xdefbe5cf, 0xa9b1642f, 0xfa6f932a),
                   Quad(0xeda23ed1, 0xddcf0634, 0x3c307338, 0x989939cf));
    Second4(words);
    FourOperations(h, words, 4, Quad(0xeda23ed1, 0xddcf0634, 0x3c307338, 0x989939cf),
                   Quad(0x75144433, 0x99b6b699, 0xc783cb60, 0xc8875807));
    Second8(words);
    FourOperations(h, words, 8, Quad(0x75144433, 0x99b6b699, 0xc783cb60, 0xc8875807),
                   Quad(0xa60a3f69, 0x64cc7c5a, 0x64db26e9, 0xaa6630be));
    Second12(words);
    FourOperations(h, words, 12, Quad(0xa60a3f69, 0x64cc7c5a, 0x64db26e9, 0xaa6630be),
                   Quad(0xa70737da, 0xa36f556f, 0x96f6586e, 0x5473f8a7));
  }

  lemma SecondRound2(h: Registers, words: seq<Word>)
    requires IsSecond(words) && Operations(Standard(), h, words, 16) == Quad(0xa70737da, 0xa36f556f, 0x96f6586e, 0x5473f8a7)
    ensures Operations(Standard(), h, words, 32) == Quad(0x24eba695, 0x9c03e2e8, 0x10c42a2f, 0x4bd0378b)
  {
    Second16(words);
    FourOperations(h, words, 16, Quad(0xa70737da, 0xa36f556f, 0x96f6586e, 0x5473f8a7),
                   Quad(0xa5050ad3, 0x82b8827c, 0x27dcd8b4, 0x28776046));
    Second20(words);
    FourOperations(h, words, 20, Quad(0xa5050ad3, 0x82b8827c, 0x27dcd8b4, 0x28776046),
                   Quad(0xe04f070c, 0xdf35cb56, 0xc0d22b61, 0x2f3cd2a2));
    Second24(words);
    FourOperations(h, words, 24, Quad(0xe04f070c, 0xdf35cb56, 0xc0d22b61, 0x2f3cd2a2),
                   Quad(0x242dd210, 0x2291191a, 0x5c295967, 0x576ace33));
    Second28(words);
    FourOperations(h, words, 28, Quad(0x242dd210, 0x2291191a, 0x5c295967, 0x576ace33),
                   Quad(0x24eba695, 0x9c03e2e8, 0x10c42a2f, 0x4bd0378b));
  }

  lemma SecondRound3(h: Registers, words: seq<Word>)
    requires IsSecond(words) && Operations(Standard(), h, words, 32) == Quad(0x24eba695, 0x9c03e2e8, 0x10c42a2f, 0x4bd0378b)
    ensures Operations(Standard(), h, words, 48) == Quad(0x54c9eb3a, 0x79c0710a, 0x2ec86f72, 0xd4d9c6ac)
  {
    Second32(words);
    FourOperations(h, words, 32, Quad(0x24eba695, 0x9c03e2e8, 0x10c42a2f, 0x4bd0378b),
                   Quad(0x5be1d526, 0xa2448453, 0x9f4a1a7e, 0x9e414279));
    Second36(words);
    FourOperations(h, words, 36, Quad(0x5be1d526, 0xa2448453, 0x9f4a1a7e, 0x9e414279),
                   Quad(0xe14e403d, 0xfe314121, 0x60cc183a, 0xe8cfd670));
    Second40(words);
    FourOperations(h, words, 40, Quad(0xe14e403d, 0xfe314121, 0x60cc183a, 0xe8cfd670),
                   Quad(0xfff62809, 0x7c7e974c, 0x8cb5221c, 0xe37209ac));
    Second44(words);
    FourOperations(h, words, 44, Quad(0xfff62809, 0x7c7e974c, 0x8cb5221c, 0xe37209ac),
                   Quad(0x54c9eb3a, 0x79c0710a, 0x2ec86f72, 0xd4d9c6ac));
  }

  lemma SecondRound4(h: Registers, words: seq<Word>)
    requires IsSecond(words) && Operations(Standard(), h, words, 48) == Quad(0x54c9eb3a, 0x79c0710a, 0x2ec86f72, 0xd4d9c6ac)
    ensures Operations(Standard(), h, words, 64) == Quad(0x14ae42c6, 0x16dd9203, 0x826afd76, 0xa52dae75)
  {
    Second48(words);
    FourOperations(h, words, 48, Quad(0x54c9eb3a, 0x79c0710a, 0x2ec86f72, 0xd4d9c6ac),
                   Quad(0x02095af1, 0x2ba98e3f, 0xa8dcfe26, 0x13d245fd));
    Second52(words);
    FourOperations(h, words, 52, Quad(0x02095af1, 0x2ba98e3f, 0xa8dcfe26, 0x13d245fd),
                   Quad(0xe126c1aa, 0xfb7bcee0, 0x6f287ff5, 0x96b00fa7));
    Second56(words);
    FourOperations(h, words, 56, Quad(0xe126c1aa, 0xfb7bcee0, 0x6f287ff5, 0x96b00fa7),
                   Quad(0x452c1099, 0x5ac74608, 0xc197ea8e, 0xca801ba6));
    Second60(words);
    FourOperations(h, words, 60, Quad(0x452c1099, 0x5ac74608, 0xc197ea8e, 0xca801ba6),
                   Quad(0x14ae42c6, 0x16dd9203, 0x826afd76, 0xa52dae75));
  }

  lemma SecondBlock(h: Registers, words: seq<Word>)
    requires IsSecond(words) && h == Quad(0x83fd320b, 0xdefbe5cf, 0xa9b1642f, 0xfa6f932a)
    ensures Operations(Standard(), h, words, 64) == Quad(0x14ae42c6, 0x16dd9203, 0x826afd76, 0xa52dae75)
  {
    SecondRound1(h, words);
    SecondRound2(h, words);
    SecondRound3(h, words);
    SecondRound4(h, words);
  }

  // From bytes to words, and back.

  lemma WordFromIs(a: nat, b: nat, c: nat, d: nat, x: Word)
    requires x as int == a + 0x100 * b + 0x1_0000 * c + 0x100_0000 * d
    ensures WordFrom(a, b, c, d) == x
  {
    WrappedIs(a + 0x100 * b + 0x1_0000 * c + 0x100_0000 * d, x);
  }

  lemma WordOfBytes(block: Block, k: nat)
    requires k < 16
    ensures WordsOf(block)[k] == WordFrom(block[4 * k], block[4 * k + 1], block[4 * k + 2], block[4 * k + 3])
  {
  }

  lemma WordAt(block: Block, k: nat, a: nat, b: nat, c: nat, d: nat, x: Word)
    requires k < 16 && a == block[4 * k] && b == block[4 * k + 1] && c == block[4 * k + 2] && d == block[4 * k + 3]
    requires x as int == a + 0x100 * b + 0x1_0000 * c + 0x100_0000 * d
    ensures WordsOf(block)[k] == x
  {
    WordOfBytes(block, k);
    WordFromIs(a, b, c, d, x);
  }

  function TextByte(k: nat): Byte
    requires k < 62
  {
    if k < 26 then 65 + k else if k < 52 then 71 + k else k - 4
  }

  lemma BlockIsText(k: nat)
    requires k < 62
    ensures BlockBeforeLast(LettersAndDigits())[k] == TextByte(k)
  {
  }

  lemma FirstWord(k: nat, x: Word)
    requires k < 15
    requires x as int == TextByte(4 * k) + 0x100 * TextByte(4 * k + 1) + 0x1_0000 * TextByte(4 * k + 2) + 0x100_0000 * TextByte(4 * k + 3)
    ensures WordsOf(BlockBeforeLast(LettersAndDigits()))[k] == x
  {
    var i := 4 * k;
    BlockIsText(i);
    BlockIsText(i + 1);
    BlockIsText(i + 2);
    BlockIsText(i + 3);
    WordAt(BlockBeforeLast(LettersAndDigits()), k, TextByte(i), TextByte(i + 1), TextByte(i + 2), TextByte(i + 3), x);
  }

  lemma LastTextWord()
    ensures WordsOf(BlockBeforeLast(LettersAndDigits()))[15] == 0x00803938
  {
    BlockIsText(60);
    BlockIsText(61);
    var b := BlockBeforeLast(LettersAndDigits());
    assert b[62] == 0x80 && b[63] == 0;
    WordAt(b, 15, TextByte(60), TextByte(61), 0x80, 0, 0x00803938);
  }

  lemma UpperWords()
    ensures var words := WordsOf(BlockBeforeLast(LettersAndDigits()));
            && words[0] == 0x44434241 && words[1] == 0x48474645 && words[2] == 0x4c4b4a49 && words[3] == 0x504f4e4d
            && words[4] == 0x54535251 && words[5] == 0x58575655 && words[6] == 0x62615a59 && words[7] == 0x66656463
  {
    FirstWord(0, 0x44434241);
    FirstWord(1, 0x48474645);
    FirstWord(2, 0x4c4b4a49);
    FirstWord(3, 0x504f4e4d);
    FirstWord(4, 0x54535251);
    FirstWord(5, 0x58575655);
    FirstWord(6, 0x62615a59);
    FirstWord(7, 0x66656463);
  }

  lemma LowerWords()
    ensures var words := WordsOf(BlockBeforeLast(LettersAndDigits()));
            && words[8] == 0x6a696867 && words[9] == 0x6e6d6c6b && words[10] == 0x7271706f && words[11] == 0x76757473
            && words[12] == 0x7a797877 && words[13] == 0x33323130 && words[14] == 0x37363534 && words[15] == 0x00803938
  {
    FirstWord(8, 0x6a696867);
    FirstWord(9, 0x6e6d6c6b);
    FirstWord(10, 0x7271706f);
    FirstWord(11, 0x76757473);
    FirstWord(12, 0x7a797877);
    FirstWord(13, 0x33323130);
    FirstWord(14, 0x37363534);
    LastTextWord();
  }

  lemma FirstWords()
    ensures IsFirst(WordsOf(BlockBeforeLast(LettersAndDigits())))
  {
    UpperWords();
    LowerWords();
  }

  /** A last block with nothing but the length. */
  function LengthBlock(length: nat): Block {
    Zeros(56) + Le64(8 * length % TWO64)
  }

  lemma LengthBytes(n: nat)
    requires n == 62
    ensures Le64(8 * n % TWO64) == [240, 1, 0, 0, 0, 0, 0, 0]
  {
  }

  lemma SecondBlockWords(block: Block)
    requires block == Zeros(56) + [240, 1, 0, 0, 0, 0, 0, 0]
    ensures IsSecond(WordsOf(block))
  {
    WordFromIs(0, 0, 0, 0, 0);
    WordFromIs(240, 1, 0, 0, 0x1f0);
  }

  lemma SecondWords(message: seq<Byte>)
    requires |message| == 62
    ensures IsSecond(WordsOf(LengthBlock(|message|)))
  {
    LengthBytes(|message|);
    SecondBlockWords(LengthBlock(|message|));
  }

  lemma FirstCompressed(block: Block)
    requires IsFirst(WordsOf(block))
    ensures Compress(Initial(), block) == Quad(0x83fd320b, 0xdefbe5cf, 0xa9b1642f, 0xfa6f932a)
  {
    FirstBlock(Initial(), WordsOf(block));
  }

  lemma SecondCompressed(block: Block)
    requires IsSecond(WordsOf(block))
    ensures Compress(Quad(0x83fd320b, 0xdefbe5cf, 0xa9b1642f, 0xfa6f932a), block) == Quad(0x98ab74d1, 0xf5d977d2, 0x2c1c61a5, 0x9f9d419f)
  {
    SecondBlock(Quad(0x83fd320b, 0xdefbe5cf, 0xa9b1642f, 0xfa6f932a), WordsOf(block));
  }

  /** A message of 56 to 63 bytes takes two blocks. */
  lemma TwoBlocks<H>(compress: Compression<H>, h: H, message: seq<Byte>)
    requires 56 <= |message| < 64
    ensures Hash(compress, h, message)
         == compress(compress(h, BlockBeforeLast(message)), LengthBlock(|message|))
  {
    HashEnds(compress, h, message);
    assert Tail(message) == message;
  }

  lemma TwoCompressed<H>(compress: Compression<H>, h: H, message: seq<Byte>, first: Block, second: Block, g: H, r: H)
    requires 56 <= |message| < 64 && first == BlockBeforeLast(message)
    requires second == LengthBlock(|message|)
    requires compress(h, first) == g && compress(g, second) == r
    ensures Hash(compress, h, message) == r
  {
    TwoBlocks(compress, h, message);
  }

  lemma SuiteBlocks(first: Block, second: Block)
    requires IsFirst(WordsOf(first)) && IsSecond(WordsOf(second))
    ensures Compress(Compress(Initial(), first), second) == Quad(0x98ab74d1, 0xf5d977d2, 0x2c1c61a5, 0x9f9d419f)
  {
    FirstCompressed(first);
    SecondCompressed(second);
  }

  lemma SuiteHash(message: seq<Byte>, first: Block, second: Block)
    requires 56 <= |message| < 64 && first == BlockBeforeLast(message)
    requires second == LengthBlock(|message|)
    requires IsFirst(WordsOf(first)) && IsSecond(WordsOf(second))
    ensures Hash(Compress, Initial(), message) == Quad(0x98ab74d1, 0xf5d977d2, 0x2c1c61a5, 0x9f9d419f)
  {
    SuiteBlocks(first, second);
    var g := Compress(Initial(), first);
    TwoCompressed(Compress, Initial(), message, first, second, g, Compress(g, second));
  }

  const DIGEST: seq<Byte> := [
    0xd1, 0x74, 0xab, 0x98, 0xd2, 0x77, 0xd9, 0xf5,
    0xa5, 0x61, 0x1c, 0x2c, 0x9f, 0x41, 0x9d, 0x9f]

  lemma Le32Of(n: nat, a: Byte, b: Byte, c: Byte, d: Byte)
    requires n == a + 0x100 * b + 0x1_0000 * c + 0x100_0000 * d
    ensures Le32(n) == [a, b, c, d]
  {
    BytesOfWord(d, c, b, a);
  }

  lemma DigestBytes(h: Registers)
    requires h == Quad(0x98ab74d1, 0xf5d977d2, 0x2c1c61a5, 0x9f9d419f)
    ensures Digest(h) == DIGEST
  {
    Le32Of(0x98ab74d1, 0xd1, 0x74, 0xab, 0x98);
    Le32Of(0xf5d977d2, 0xd2, 0x77, 0xd9, 0xf5);
    Le32Of(0x2c1c61a5, 0xa5, 0x61, 0x1c, 0x2c);
    Le32Of(0x9f9d419f, 0x9f, 0x41, 0x9d, 0x9f);
  }

  lemma DigestOfHash(message: seq<Byte>, h: Registers)
    requires h == Hash(Compress, Initial(), message) == Quad(0x98ab74d1, 0xf5d977d2, 0x2c1c61a5, 0x9f9d419f)
    ensures Md5Digest(message) == DIGEST
  {
    DigestBytes(h);
  }

  /** MD5 ("ABCDEFGHIJKLMNOPQRSTUVWXYZabcdefghijklmnopqrstuvwxyz0123456789") = d174ab98d277d9f5a5611c2c9f419d9f */
  lemma SuiteDigest()
    ensures Md5Digest(LettersAndDigits()) == DIGEST
  {
    FirstWords();
    SecondWords(LettersAndDigits());
    SuiteHash(LettersAndDigits(), BlockBeforeLast(LettersAndDigits()), LengthBlock(|LettersAndDigits()|));
    DigestOfHash(LettersAndDigits(), Hash(Compress, Initial(), LettersAndDigits()));
  }
}
