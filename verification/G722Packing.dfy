/** Packing of 6- and 7-bit codes into bytes, least significant bit first. */
module G722Packing {
  import opened CInt

  /** A shift register holding count bits. */
  datatype BitBuffer = BitBuffer(value: nat, count: nat)

  predicate BufferOk(b: BitBuffer) {
    b.count < 8 && b.value < Pow2(b.count)
  }

  type Width = n: nat | 6 <= n <= 7 witness 6

  function PackStep(b: BitBuffer, code: nat, n: Width): (BitBuffer, seq<Byte>) {
    var value := BitOr(b.value, Shl(code, b.count));
    var count := b.count + n;
    if count >= 8 then (BitBuffer(value / 256, count - 8), [value % 256]) else (BitBuffer(value, count), [])
  }

  /** The packing of a run of codes, from the left. */
  function PackRun(b: BitBuffer, codes: seq<nat>, n: Width): (BitBuffer, seq<Byte>) {
    if codes == [] then (b, [])
    else
      var before := PackRun(b, codes[..|codes| - 1], n);
      var step := PackStep(before.0, codes[|codes| - 1], n);
      (step.0, before.1 + step.1)
  }

  /** One round of the unpacking loop: take a byte if the register holds less than a code, then take a code. */
  function Refill(b: BitBuffer, byte: Byte): BitBuffer {
    BitBuffer(BitOr(b.value, Shl(byte, b.count)), b.count + 8)
  }

  function TakeCode(b: BitBuffer, n: Width): (BitBuffer, nat)
    requires n <= b.count
  {
    var radix := if n == 6 then 64 else 128;
    (BitBuffer(b.value / radix, b.count - n), b.value % radix)
  }

  /** The unpacking loop: it stops as soon as the bytes run out. */
  function UnpackRun(b: BitBuffer, bytes: seq<Byte>, n: Width): (BitBuffer, seq<nat>)
    decreases 8 * |bytes| + b.count
  {
    if bytes == [] then (b, [])
    else if b.count < n then
      var t := TakeCode(Refill(b, bytes[0]), n);
      var rest := UnpackRun(t.0, bytes[1..], n);
      (rest.0, [t.1] + rest.1)
    else
      var t := TakeCode(b, n);
      var rest := UnpackRun(t.0, bytes, n);
      (rest.0, [t.1] + rest.1)
  }

  // The meaning: sequences of bits.

  function Bits(value: nat, count: nat): (r: seq<bool>)
    ensures |r| == count
  {
    if count == 0 then [] else [value % 2 == 1] + Bits(value / 2, count - 1)
  }

  function CodeBits(codes: seq<nat>, n: nat): (r: seq<bool>)
    ensures |r| == n * |codes|
  {
    if codes == [] then [] else Bits(codes[0], n) + CodeBits(codes[1..], n)
  }

  function BufferBits(b: BitBuffer): seq<bool> {
    Bits(b.value, b.count)
  }

  lemma {:induction false} BitsConcat(low: nat, m: nat, high: nat, n: nat)
    requires low < Pow2(m)
    ensures Bits(low + Shl(high, m), m + n) == Bits(low, m) + Bits(high, n)
    decreases m
  {
    if m > 0 {
      var v := low + Shl(high, m);
      BitsConcat(low / 2, m - 1, high, n);
      assert v % 2 == low % 2 && v / 2 == low / 2 + Shl(high, m - 1);
      assert Bits(v, m + n) == [v % 2 == 1] + Bits(v / 2, m - 1 + n);
    }
  }

  lemma PowerOfTwo(x: nat)
    ensures Pow2(6) == 64 && Pow2(7) == 128 && Pow2(8) == 256
    ensures Shl(x, 6) == 64 * x && Shl(x, 7) == 128 * x && Shl(x, 8) == 256 * x
  {
    assert Shl(x, 3) == 8 * x && Shl(x, 6) == 8 * Shl(x, 3);
  }

  lemma {:induction false} BitsInjective(u: nat, v: nat, n: nat)
    requires u < Pow2(n) && v < Pow2(n) && Bits(u, n) == Bits(v, n)
    ensures u == v
    decreases n
  {
    if n > 0 {
      assert Bits(u, n)[0] == Bits(v, n)[0] && Bits(u, n)[1..] == Bits(v, n)[1..];
      BitsInjective(u / 2, v / 2, n - 1);
    }
  }

  lemma {:induction false} CodeBitsConcat(a: seq<nat>, b: seq<nat>, n: nat)
    ensures CodeBits(a + b, n) == CodeBits(a, n) + CodeBits(b, n)
  {
    if a == [] {
      assert a + b == b;
    } else {
      assert (a + b)[1..] == a[1..] + b;
      CodeBitsConcat(a[1..], b, n);
    }
  }

  lemma CodeBitsOne(c: nat, n: nat)
    ensures CodeBits([c], n) == Bits(c, n)
  {
    assert CodeBits([c][1..], n) == [];
  }

  // Conservation: packing and unpacking only cut the bit sequence differently.

  lemma {:induction false} QuotientBelow(v: nat, k: nat, m: nat)
    requires v < Pow2(k + m)
    ensures Shr(v, k) < Pow2(m)
    decreases k
  {
    if k > 0 {
      QuotientBelow(v / 2, k - 1, m);
    }
  }

  lemma {:induction false} ShrShr(v: nat, a: nat, b: nat)
    ensures Shr(v, a + b) == Shr(Shr(v, a), b)
    decreases a
  {
    if a > 0 {
      ShrShr(v / 2, a - 1, b);
    }
  }

  lemma ShrThree(v: nat)
    ensures Shr(v, 1) == v / 2 && Shr(v, 2) == v / 4 && Shr(v, 3) == v / 8
  {
    assert Shr(v, 3) == Shr(v / 2, 2) == Shr(v / 2 / 2, 1) == Shr(v / 2 / 2 / 2, 0);
  }

  lemma ShrByteOrCode(v: nat)
    ensures Shr(v, 6) == v / 64 && Shr(v, 7) == v / 128 && Shr(v, 8) == v / 256
  {
    ShrThree(v);
    ShrThree(v / 8);
    ShrThree(v / 64);
    ShrShr(v, 3, 3);
    ShrShr(v, 6, 1);
    ShrShr(v, 6, 2);
  }

  /** The low n bits of a number and the rest. */
  lemma CutLow(v: nat, n: nat, m: nat, low: nat, high: nat)
    requires v == low + Shl(high, n) && low < Pow2(n) && Shr(v, n) == high && v < Pow2(n + m)
    ensures high < Pow2(m) && Bits(v, n + m) == Bits(low, n) + Bits(high, m)
  {
    QuotientBelow(v, n, m);
    BitsConcat(low, n, high, m);
  }

  lemma Cut6(v: nat, m: nat)
    requires v < Pow2(6 + m)
    ensures v % 64 < Pow2(6) && v / 64 < Pow2(m) && Bits(v, 6 + m) == Bits(v % 64, 6) + Bits(v / 64, m)
  {
    PowerOfTwo(v / 64);
    ShrByteOrCode(v);
    CutLow(v, 6, m, v % 64, v / 64);
  }

  lemma Cut7(v: nat, m: nat)
    requires v < Pow2(7 + m)
    ensures v % 128 < Pow2(7) && v / 128 < Pow2(m) && Bits(v, 7 + m) == Bits(v % 128, 7) + Bits(v / 128, m)
  {
    PowerOfTwo(v / 128);
    ShrByteOrCode(v);
    CutLow(v, 7, m, v % 128, v / 128);
  }

  lemma Cut8(v: nat, m: nat)
    requires v < Pow2(8 + m)
    ensures v % 256 < Pow2(8) && v / 256 < Pow2(m) && Bits(v, 8 + m) == Bits(v % 256, 8) + Bits(v / 256, m)
  {
    PowerOfTwo(v / 256);
    ShrByteOrCode(v);
    CutLow(v, 8, m, v % 256, v / 256);
  }

  lemma AppendKeepsBits(b: BitBuffer, code: nat, n: nat)
    requires BufferOk(b) && code < Pow2(n)
    ensures var value := BitOr(b.value, Shl(code, b.count));
            value < Pow2(b.count + n) && Bits(value, b.count + n) == BufferBits(b) + Bits(code, n)
  {
    BitOrDisjoint(b.value, code, b.count);
    BitsConcat(b.value, b.count, code, n);
    ConcatBelow(b.value, b.count, code, n);
  }

  lemma ByteBits(v: nat)
    ensures CodeBits([v], 8) == Bits(v, 8)
  {
    CodeBitsOne(v, 8);
  }

  lemma PutByte(value: nat, m: nat)
    requires m < 8 && value < Pow2(8 + m)
    ensures BufferOk(BitBuffer(value / 256, m))
    ensures Bits(value, 8 + m) == CodeBits([value % 256], 8) + Bits(value / 256, m)
  {
    Cut8(value, m);
    ByteBits(value % 256);
  }

  lemma NothingSent(bits: seq<bool>)
    ensures CodeBits([], 8) + bits == bits
  {
  }

  lemma PackStepKeepsBits(b: BitBuffer, code: nat, n: Width)
    requires BufferOk(b) && code < Pow2(n)
    ensures var step := PackStep(b, code, n);
            && BufferOk(step.0)
            && BufferBits(b) + Bits(code, n) == CodeBits(step.1, 8) + BufferBits(step.0)
  {
    AppendKeepsBits(b, code, n);
    var value, count := BitOr(b.value, Shl(code, b.count)), b.count + n;
    if count >= 8 {
      PutByte(value, count - 8);
    } else {
      NothingSent(Bits(value, count));
    }
  }

  /** The packed bytes and the bits left in the register are the codes' bits, in order. */
  lemma {:induction false} PackKeepsBits(b: BitBuffer, codes: seq<nat>, n: Width)
    requires BufferOk(b) && forall i :: 0 <= i < |codes| ==> codes[i] < Pow2(n)
    ensures var r := PackRun(b, codes, n);
            && BufferOk(r.0)
            && BufferBits(b) + CodeBits(codes, n) == CodeBits(r.1, 8) + BufferBits(r.0)
  {
    if codes == [] {
      assert BufferBits(b) + [] == [] + BufferBits(b);
    } else {
      var k := |codes| - 1;
      var front, last := codes[..k], codes[k];
      assert codes == front + [last];
      PackKeepsBits(b, front, n);
      var before := PackRun(b, front, n);
      PackStepKeepsBits(before.0, last, n);
      var step := PackStep(before.0, last, n);
      CodeBitsConcat(front, [last], n);
      CodeBitsOne(last, n);
      CodeBitsConcat(before.1, step.1, 8);
      Regroup(BufferBits(b), CodeBits(front, n), Bits(last, n),
              CodeBits(before.1, 8), BufferBits(before.0), CodeBits(step.1, 8), BufferBits(step.0));
    }
  }

  lemma Regroup(b: seq<bool>, front: seq<bool>, last: seq<bool>,
                sent: seq<bool>, held: seq<bool>, more: seq<bool>, left: seq<bool>)
    requires b + front == sent + held && held + last == more + left
    ensures b + (front + last) == sent + more + left
  {
    assert b + (front + last) == (b + front) + last;
    assert sent + held + last == sent + (held + last);
    assert sent + (more + left) == sent + more + left;
  }

  lemma RefillKeepsBits(b: BitBuffer, byte: Byte)
    requires BufferOk(b)
    ensures BufferBits(Refill(b, byte)) == BufferBits(b) + Bits(byte, 8)
    ensures Refill(b, byte).value < Pow2(b.count + 8)
  {
    PowerOfTwo(byte);
    AppendKeepsBits(b, byte, 8);
  }

  lemma TakeKeepsBits(b: BitBuffer, n: Width)
    requires n <= b.count && b.value < Pow2(b.count)
    ensures var t := TakeCode(b, n);
            && t.1 < Pow2(n) && t.0.value < Pow2(t.0.count)
            && BufferBits(b) == Bits(t.1, n) + BufferBits(t.0)
  {
    if n == 6 {
      Cut6(b.value, b.count - 6);
    } else {
      Cut7(b.value, b.count - 7);
    }
  }

  lemma UnpackRound(b: BitBuffer, bytes: seq<Byte>, n: Width)
    requires BufferOk(b) && bytes != []
    ensures var full := if b.count < n then Refill(b, bytes[0]) else b;
            var t := TakeCode(full, n);
            && BufferOk(t.0) && t.1 < Pow2(n)
            && BufferBits(b) + (if b.count < n then Bits(bytes[0], 8) else []) == Bits(t.1, n) + BufferBits(t.0)
  {
    if b.count < n {
      RefillKeepsBits(b, bytes[0]);
      TakeKeepsBits(Refill(b, bytes[0]), n);
    } else {
      TakeKeepsBits(b, n);
      assert BufferBits(b) + [] == BufferBits(b);
    }
  }

  /** The decoded codes and the bits left in the register are the bytes' bits, in order. */
  lemma {:induction false} UnpackKeepsBits(b: BitBuffer, bytes: seq<Byte>, n: Width)
    requires BufferOk(b)
    ensures var r := UnpackRun(b, bytes, n);
            && BufferOk(r.0) && (forall i :: 0 <= i < |r.1| ==> r.1[i] < Pow2(n))
            && BufferBits(b) + CodeBits(bytes, 8) == CodeBits(r.1, n) + BufferBits(r.0)
    decreases 8 * |bytes| + b.count
  {
    if bytes == [] {
      assert BufferBits(b) + [] == [] + BufferBits(b);
    } else {
      UnpackRound(b, bytes, n);
      var full := if b.count < n then Refill(b, bytes[0]) else b;
      var t := TakeCode(full, n);
      var left := if b.count < n then bytes[1..] else bytes;
      UnpackKeepsBits(t.0, left, n);
      var rest := UnpackRun(t.0, left, n);
      assert UnpackRun(b, bytes, n) == (rest.0, [t.1] + rest.1);
      assert ([t.1] + rest.1)[1..] == rest.1;
      var taken := if b.count < n then Bits(bytes[0], 8) else [];
      assert CodeBits(bytes, 8) == taken + CodeBits(left, 8);
      Regroup2(BufferBits(b), taken, CodeBits(left, 8), Bits(t.1, n), BufferBits(t.0),
               CodeBits(rest.1, n), BufferBits(rest.0));
    }
  }

  lemma Regroup2(b: seq<bool>, taken: seq<bool>, left: seq<bool>,
                 code: seq<bool>, held: seq<bool>, more: seq<bool>, end: seq<bool>)
    requires b + taken == code + held && held + left == more + end
    ensures b + (taken + left) == code + more + end
  {
    assert b + (taken + left) == (b + taken) + left;
    assert code + held + left == code + (held + left);
    assert code + (more + end) == code + more + end;
  }

  /** A non-empty call leaves between 8 - n and 7 bits behind. */
  lemma {:induction false} UnpackResidue(b: BitBuffer, bytes: seq<Byte>, n: Width)
    requires BufferOk(b) && bytes != []
    ensures 8 - n <= UnpackRun(b, bytes, n).0.count <= 7
    decreases 8 * |bytes| + b.count
  {
    UnpackRound(b, bytes, n);
    if b.count < n {
      if |bytes| > 1 {
        UnpackResidue(TakeCode(Refill(b, bytes[0]), n).0, bytes[1..], n);
      }
    } else {
      UnpackResidue(TakeCode(b, n).0, bytes, n);
    }
  }

  /** Exactly how many codes a call decodes. The loop ends with the bytes, so a code that is already complete in the
      register is left for the next call: the call yields every complete code if and only if the bits it had,
      taken modulo the code width, are at least 8 - n. Otherwise it is one short. */
  lemma UnpackCount(b: BitBuffer, bytes: seq<Byte>, n: Width)
    requires BufferOk(b) && bytes != []
    ensures var total := 8 * |bytes| + b.count;
            var got := |UnpackRun(b, bytes, n).1|;
            && got == (total - (8 - n)) / n
            && (got == total / n <==> total % n >= 8 - n)
            && (got == total / n - 1 <==> total % n < 8 - n)
  {
    UnpackKeepsBits(b, bytes, n);
    UnpackResidue(b, bytes, n);
    var r := UnpackRun(b, bytes, n);
    CountFromResidue(8 * |bytes| + b.count, |r.1|, r.0.count, n);
  }

  lemma CountFromResidue(total: nat, got: nat, residue: nat, n: Width)
    requires total == n * got + residue && 8 - n <= residue <= 7
    ensures got == (total - (8 - n)) / n
    ensures got == total / n <==> total % n >= 8 - n
    ensures got == total / n - 1 <==> total % n < 8 - n
  {
  }

  /** Three bytes at 6 bits hold four codes, of which the first call yields three. */
  lemma UnpackOneShort()
    ensures var r := UnpackRun(BitBuffer(0, 0), [0, 0, 0], 6); |r.1| == 3 && r.0.count == 6
  {
    UnpackCount(BitBuffer(0, 0), [0, 0, 0], 6);
    UnpackKeepsBits(BitBuffer(0, 0), [0, 0, 0], 6);
  }

  /** Decoding in several calls is decoding in one. */
  lemma {:induction false} UnpackConcat(b: BitBuffer, first: seq<Byte>, second: seq<Byte>, n: Width)
    ensures var r := UnpackRun(b, first, n);
            var s := UnpackRun(r.0, second, n);
            UnpackRun(b, first + second, n) == (s.0, r.1 + s.1)
    decreases 8 * |first| + b.count
  {
    if first == [] {
      assert first + second == second;
      assert [] + UnpackRun(b, second, n).1 == UnpackRun(b, second, n).1;
    } else {
      var full := if b.count < n then Refill(b, first[0]) else b;
      var t := TakeCode(full, n);
      var left := if b.count < n then first[1..] else first;
      assert (first + second)[1..] == first[1..] + second;
      UnpackConcat(t.0, left, second, n);
      var r := UnpackRun(t.0, left, n);
      var s := UnpackRun(r.0, second, n);
      assert [t.1] + (r.1 + s.1) == [t.1] + r.1 + s.1;
    }
  }

  lemma {:induction false} PackConcat(b: BitBuffer, first: seq<nat>, second: seq<nat>, n: Width)
    ensures var r := PackRun(b, first, n);
            var s := PackRun(r.0, second, n);
            PackRun(b, first + second, n) == (s.0, r.1 + s.1)
  {
    if second == [] {
      assert first + second == first;
      assert PackRun(b, first, n).1 + [] == PackRun(b, first, n).1;
    } else {
      var k := |second| - 1;
      PackConcat(b, first, second[..k], n);
      assert (first + second)[..|first + second| - 1] == first + second[..k];
      assert (first + second)[|first + second| - 1] == second[k];
      var r := PackRun(b, first, n);
      var s := PackRun(r.0, second[..k], n);
      var step := PackStep(s.0, second[k], n);
      assert r.1 + (s.1 + step.1) == r.1 + s.1 + step.1;
    }
  }

  // Round trip.

  /** Equal bits begin with the same code. */
  lemma SameHead(x: nat, y: nat, n: nat, xs: seq<bool>, ys: seq<bool>)
    requires x < Pow2(n) && y < Pow2(n) && Bits(x, n) + xs == Bits(y, n) + ys
    ensures x == y && xs == ys
  {
    assert (Bits(x, n) + xs)[..n] == Bits(x, n) && (Bits(y, n) + ys)[..n] == Bits(y, n);
    assert (Bits(x, n) + xs)[n..] == xs && (Bits(y, n) + ys)[n..] == ys;
    BitsInjective(x, y, n);
  }

  lemma {:induction false} PrefixOfBits(short: seq<nat>, long: seq<nat>, n: nat, tail: seq<bool>)
    requires n > 0
    requires forall i :: 0 <= i < |short| ==> short[i] < Pow2(n)
    requires forall i :: 0 <= i < |long| ==> long[i] < Pow2(n)
    requires CodeBits(long, n) == CodeBits(short, n) + tail
    ensures short <= long && tail == CodeBits(long[|short|..], n)
  {
    if short == [] {
      assert CodeBits(short, n) + tail == tail;
    } else {
      LongEnough(|short|, |long|, n);
      SameFirst(short, long, n, tail);
      TailBelow(short, n);
      TailBelow(long, n);
      PrefixOfBits(short[1..], long[1..], n, tail);
      PrefixFromTail(short, long);
    }
  }

  lemma BitsAssociate(a: seq<bool>, b: seq<bool>, c: seq<bool>)
    ensures (a + b) + c == a + (b + c)
  {
  }

  lemma SameFirst(short: seq<nat>, long: seq<nat>, n: nat, tail: seq<bool>)
    requires short != [] && long != [] && short[0] < Pow2(n) && long[0] < Pow2(n)
    requires CodeBits(long, n) == CodeBits(short, n) + tail
    ensures short[0] == long[0] && CodeBits(long[1..], n) == CodeBits(short[1..], n) + tail
  {
    var rest := CodeBits(short[1..], n);
    BitsAssociate(Bits(short[0], n), rest, tail);
    SameHead(long[0], short[0], n, CodeBits(long[1..], n), rest + tail);
  }

  lemma TailBelow(codes: seq<nat>, n: nat)
    requires codes != [] && forall i :: 0 <= i < |codes| ==> codes[i] < Pow2(n)
    ensures forall i :: 0 <= i < |codes[1..]| ==> codes[1..][i] < Pow2(n)
  {
  }

  lemma PrefixFromTail(short: seq<nat>, long: seq<nat>)
    requires short != [] && long != [] && short[0] == long[0] && short[1..] <= long[1..]
    ensures short <= long && long[1..][|short[1..]|..] == long[|short|..]
  {
    assert short == [short[0]] + short[1..] && long == [long[0]] + long[1..];
  }

  lemma LongEnough(short: nat, long: nat, n: nat)
    requires n > 0 && short > 0 && n * long >= n * short
    ensures long > 0
  {
  }

  /** What a packing encoder sent, an unpacking decoder reads back: its codes are a prefix of the encoder's, and the
      codes still missing are exactly the bits held in the two registers. */
  lemma PackedRoundTrip(codes: seq<nat>, n: Width)
    requires forall i :: 0 <= i < |codes| ==> codes[i] < Pow2(n)
    ensures var sent := PackRun(BitBuffer(0, 0), codes, n);
            var heard := UnpackRun(BitBuffer(0, 0), sent.1, n);
            && heard.1 <= codes
            && CodeBits(codes[|heard.1|..], n) == BufferBits(heard.0) + BufferBits(sent.0)
            && |codes| - |heard.1| <= 2
  {
    var empty := BitBuffer(0, 0);
    PackKeepsBits(empty, codes, n);
    var sent := PackRun(empty, codes, n);
    UnpackKeepsBits(empty, sent.1, n);
    var heard := UnpackRun(empty, sent.1, n);
    var tail := BufferBits(heard.0) + BufferBits(sent.0);
    Rejoin(CodeBits(codes, n), CodeBits(sent.1, 8), BufferBits(sent.0), CodeBits(heard.1, n), BufferBits(heard.0));
    PrefixOfBits(heard.1, codes, n, tail);
    MissingCodes(|codes[|heard.1|..]|, n, |tail|);
  }

  lemma Rejoin(codes: seq<bool>, sent: seq<bool>, held: seq<bool>, heard: seq<bool>, pending: seq<bool>)
    requires [] + codes == sent + held && [] + sent == heard + pending
    ensures codes == heard + (pending + held)
  {
    assert codes == [] + codes && sent == [] + sent;
    assert heard + pending + held == heard + (pending + held);
  }

  lemma MissingCodes(missing: nat, n: Width, bits: nat)
    requires n * missing == bits <= 14
    ensures missing <= 2
  {
  }
}
