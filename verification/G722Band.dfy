/** One band of the G.722 adaptive predictor: the specification on values. */
module G722Band {
  import opened CInt
  import opened G722Tables

  /** The state of one band, every scratch field of the C structure included. */
  datatype Band = Band(
    s: int, sp: int, sz: int,
    r: seq<int>, a: seq<int>, ap: seq<int>, p: seq<int>,
    d: seq<int>, b: seq<int>, bp: seq<int>, sg: seq<int>,
    nb: int, det: int)

  function Saturate(amp: int): int {
    Clamp(amp, -32768, 32767)
  }

  /** The source tests whether the cast to 16 bits is lossless before it compares with the limits. */
  lemma SaturateByCast(amp: int)
    ensures Saturate(amp) == if amp == ToInt16(amp) then ToInt16(amp) else if amp > 32767 then 32767 else -32768
  {
  }

  function Sign(x: int): int {
    x / 32768
  }

  // Block 4: the adaptation that follows every quantised difference d.

  /** UPPOL2: the new second pole coefficient. */
  function PoleTwo(p: seq<int>, a: seq<int>): int
    requires |p| == 3 && |a| == 3
  {
    var wd1 := Saturate(a[1] * 4);
    var wd2 := if Sign(p[0]) == Sign(p[1]) then -wd1 else wd1;
    var wd3 := (if wd2 > 32767 then 32767 else wd2) / 128
               + (if Sign(p[0]) == Sign(p[2]) then 128 else -128)
               + a[2] * 32512 / 32768;
    Clamp(wd3, -12288, 12288)
  }

  /** UPPOL1: the new first pole coefficient, kept inside the stability triangle of the second. */
  function PoleOne(p: seq<int>, a: seq<int>, ap2: int): int
    requires |p| == 3 && |a| == 3
  {
    var wd1 := if Sign(p[0]) == Sign(p[1]) then 192 else -192;
    var limit := Saturate(15360 - ap2);
    Clamp(Saturate(wd1 + a[1] * 32640 / 32768), -limit, limit)
  }

  /** UPZERO: leak coefficient b by 1/256 and push it by 128 towards the sign agreement of d and its old value. */
  function ZeroStep(b: int, old_d: int, d: int): int {
    (if d == 0 then 0 else if Sign(old_d) == Sign(d) then 128 else -128) + b * 32640 / 32768
  }

  function ZeroTaps(v: Band, d: int): seq<int>
    requires |v.b| == 7 && |v.d| == 7
  {
    [Saturate(ZeroStep(v.b[1], v.d[1], d)), Saturate(ZeroStep(v.b[2], v.d[2], d)),
     Saturate(ZeroStep(v.b[3], v.d[3], d)), Saturate(ZeroStep(v.b[4], v.d[4], d)),
     Saturate(ZeroStep(v.b[5], v.d[5], d)), Saturate(ZeroStep(v.b[6], v.d[6], d))]
  }

  /** FILTEP: the pole section of the prediction. */
  function PoleSection(a: seq<int>, r: seq<int>): int
    requires |a| == 3 && |r| == 3
  {
    Saturate(a[1] * Saturate(2 * r[1]) / 32768 + a[2] * Saturate(2 * r[2]) / 32768)
  }

  /** FILTEZ: the zero section of the prediction, taps n..6, before saturation. */
  function ZeroSum(b: seq<int>, d: seq<int>, n: nat): int
    requires |b| == 7 && |d| == 7 && 1 <= n <= 7
    decreases 7 - n
  {
    if n == 7 then 0 else ZeroSum(b, d, n + 1) + b[n] * Saturate(2 * d[n]) / 32768
  }

  predicate Shaped(v: Band) {
    |v.r| == 3 && |v.a| == 3 && |v.ap| == 3 && |v.p| == 3 &&
    |v.d| == 7 && |v.b| == 7 && |v.bp| == 7 && |v.sg| == 7
  }

  /** The whole of block 4 as one update of the state; nb and det are not touched. */
  function Adapt(v: Band, d: int): (w: Band)
    requires Shaped(v)
    ensures Shaped(w) && w.nb == v.nb && w.det == v.det
  {
    var r0, p0 := Saturate(v.s + d), Saturate(v.sz + d);
    var p := v.p[0 := p0];
    var ap2 := PoleTwo(p, v.a);
    var ap1 := PoleOne(p, v.a, ap2);
    var a := [v.a[0], ap1, ap2];
    var r := [r0, r0, v.r[1]];
    var dd := [d, d] + v.d[1..6];
    var bb := [v.b[0]] + ZeroTaps(v, d);
    var sp := PoleSection(a, r);
    var sz := Saturate(ZeroSum(bb, dd, 1));
    Band(Saturate(sp + sz), sp, sz, r, a, [v.ap[0], ap1, ap2], [p0, p0, v.p[1]],
         dd, bb, [v.bp[0]] + ZeroTaps(v, d), SignHistory(v, d), v.nb, v.det)
  }

  function SignHistory(v: Band, d: int): seq<int>
    requires |v.d| == 7
  {
    [Sign(d), Sign(v.d[1]), Sign(v.d[2]), Sign(v.d[3]), Sign(v.d[4]), Sign(v.d[5]), Sign(v.d[6])]
  }

  predicate AllInt16(q: seq<int>) {
    forall i :: 0 <= i < |q| ==> -32768 <= q[i] <= 32767
  }

  /** The pole coefficients stay inside the stability triangle. */
  predicate PolesOk(a: seq<int>) {
    |a| == 3 && a[0] == 0 && -12288 <= a[2] <= 12288 && Abs(a[1]) <= 15360 - a[2]
  }

  /** What every reachable predictor state satisfies. */
  predicate PredictorOk(v: Band) {
    Shaped(v) && PolesOk(v.a) && PolesOk(v.ap) &&
    -32768 <= v.s <= 32767 && -32768 <= v.sp <= 32767 && -32768 <= v.sz <= 32767 &&
    AllInt16(v.r) && AllInt16(v.p) && AllInt16(v.d) && AllInt16(v.b) && AllInt16(v.bp) && AllInt16(v.sg)
  }

  /** The leaky update of a zero coefficient never leaves 16 bits, so its saturation never clips. */
  lemma ZeroTapNeverClips(b: int, old_d: int, d: int)
    requires -32768 <= b <= 32767
    ensures -32768 <= ZeroStep(b, old_d, d) <= 32767
    ensures Saturate(ZeroStep(b, old_d, d)) == ZeroStep(b, old_d, d)
  {
  }

  lemma PolesStayOk(p: seq<int>, a: seq<int>)
    requires |p| == 3 && |a| == 3 && a[0] == 0
    ensures var ap2 := PoleTwo(p, a); PolesOk([a[0], PoleOne(p, a, ap2), ap2])
  {
  }

  lemma AdaptKeepsPoles(v: Band, d: int)
    requires PredictorOk(v)
    ensures PolesOk(Adapt(v, d).a) && PolesOk(Adapt(v, d).ap)
  {
    PolesStayOk(v.p[0 := Saturate(v.sz + d)], v.a);
  }

  lemma AdaptKeepsTaps(v: Band, d: int)
    requires PredictorOk(v)
    ensures AllInt16(Adapt(v, d).b) && AllInt16(Adapt(v, d).bp)
  {
  }

  lemma AdaptKeepsHistory(v: Band, d: int)
    requires PredictorOk(v)
    ensures var w := Adapt(v, d); AllInt16(w.r) && AllInt16(w.p)
  {
  }

  lemma AdaptKeepsDifferences(v: Band, d: int)
    requires PredictorOk(v) && -32768 <= d <= 32767
    ensures var w := Adapt(v, d); AllInt16(w.d) && AllInt16(w.sg)
  {
  }

  lemma AdaptKeepsOutput(v: Band, d: int)
    requires Shaped(v)
    ensures var w := Adapt(v, d);
            -32768 <= w.s <= 32767 && -32768 <= w.sp <= 32767 && -32768 <= w.sz <= 32767
  {
  }

  /** Block 4 keeps the pole coefficients in the stability triangle and everything else in 16 bits. */
  lemma AdaptOk(v: Band, d: int)
    requires PredictorOk(v) && -32768 <= d <= 32767
    ensures PredictorOk(Adapt(v, d))
  {
    AdaptKeepsPoles(v, d);
    AdaptKeepsTaps(v, d);
    AdaptKeepsHistory(v, d);
    AdaptKeepsDifferences(v, d);
    AdaptKeepsOutput(v, d);
  }

  // The scale factor: blocks LOGSCL, LOGSCH (nb) and SCALEL, SCALEH (det).

  const LOW_TOP := 18432
  const HIGH_TOP := 22528

  /** The antilogarithm: mantissa ILB shifted by the octave; base is 8 for the low and 10 for the high band. */
  function Scale(nb: int, base: nat): int
    requires 0 <= nb
  {
    var wd1 := nb / 64 % 32;
    var wd2 := base - nb / 2048;
    4 * (if wd2 < 0 then Shl(ILB[wd1], -wd2) else Shr(ILB[wd1], wd2))
  }

  lemma IlbMonotone(i: nat, j: nat)
    requires i <= j < 32
    ensures 2048 <= ILB[i] <= ILB[j] < 4096
  {
  }

  /** The scale factor at the start of octave k. */
  function OctaveStart(k: nat, base: nat): int {
    4 * (if k > base then Shl(2048, k - base) else Shr(2048, base - k))
  }

  lemma OctaveEdges(k: nat, base: nat)
    requires k <= base
    ensures OctaveStart(k, base) == 4 * Shr(2048, base - k)
    ensures OctaveStart(k + 1, base) == 4 * Shr(4096, base - k)
  {
    if k == base {
      assert Pow2(1) == 2;
    }
  }

  /** A mantissa between its limits stays inside its octave. */
  lemma InOctave(x: nat, k: nat, base: nat)
    requires 2048 <= x <= 4096 && k <= base
    ensures OctaveStart(k, base) <= 4 * Shr(x, base - k) <= OctaveStart(k + 1, base)
  {
    ShrMonotone(2048, x, base - k);
    ShrMonotone(x, 4096, base - k);
    OctaveEdges(k, base);
  }

  lemma ScaleIs(nb: nat, base: nat)
    requires nb / 2048 <= base
    ensures Scale(nb, base) == 4 * Shr(ILB[nb / 64 % 32], base - nb / 2048)
  {
  }

  lemma InsideOctave(nb: nat, base: nat)
    requires nb / 2048 <= base
    ensures var k := nb / 2048; OctaveStart(k, base) <= Scale(nb, base) <= OctaveStart(k + 1, base)
  {
    var m := nb / 64 % 32;
    ScaleIs(nb, base);
    IlbMonotone(0, m);
    IlbMonotone(m, 31);
    InOctave(ILB[m], nb / 2048, base);
  }

  lemma {:induction false} OctavesMonotone(j: nat, k: nat, base: nat)
    requires j <= k <= base + 1
    ensures OctaveStart(j, base) <= OctaveStart(k, base)
    decreases k - j
  {
    if j < k {
      InOctave(2048, j, base);
      OctavesMonotone(j + 1, k, base);
    }
  }

  lemma ScaleOfZero(base: nat)
    ensures Scale(0, base) == 4 * Shr(2048, base) == OctaveStart(0, base)
  {
    assert ILB[0] == 2048;
  }

  lemma ScaleAtStart(base: nat)
    requires base == 8 || base == 10
    ensures OctaveStart(0, base) == if base == 8 then 32 else 8
  {
    assert Shr(2048, 8) == 8 && Shr(2048, 10) == 2;
  }

  lemma ScaleAtTop(base: nat)
    requires base == 8 || base == 10
    ensures Scale(2048 * (base + 1), base) == OctaveStart(base + 1, base) == 16384
  {
    assert Pow2(1) == 2;
  }

  lemma ScaleRange(nb: nat, base: nat)
    requires base == 8 || base == 10
    requires nb <= 2048 * (base + 1)
    ensures (if base == 8 then 32 else 8) <= Scale(nb, base) <= 16384
  {
    ScaleAtStart(base);
    ScaleAtTop(base);
    if nb < 2048 * (base + 1) {
      InsideOctave(nb, base);
      OctavesMonotone(0, nb / 2048, base);
      OctavesMonotone(nb / 2048 + 1, base + 1, base);
    }
  }

  lemma MantissaMonotone(nb1: nat, nb2: nat)
    requires nb1 <= nb2 && nb1 / 2048 == nb2 / 2048
    ensures nb1 / 64 % 32 <= nb2 / 64 % 32
  {
    MantissaOf(nb1);
    MantissaOf(nb2);
  }

  lemma MantissaOf(nb: nat)
    ensures nb / 64 % 32 == nb / 64 - 32 * (nb / 2048)
  {
    DivisionIsUnique(nb, 2048, nb / 64 / 32, 64 * (nb / 64 % 32) + nb % 64);
  }

  lemma SameOctave(nb1: nat, nb2: nat, base: nat)
    requires nb1 <= nb2 && nb1 / 2048 == nb2 / 2048 <= base
    ensures Scale(nb1, base) <= Scale(nb2, base)
  {
    MantissaMonotone(nb1, nb2);
    ScaleIs(nb1, base);
    ScaleIs(nb2, base);
    IlbMonotone(nb1 / 64 % 32, nb2 / 64 % 32);
    ShrMonotone(ILB[nb1 / 64 % 32], ILB[nb2 / 64 % 32], base - nb1 / 2048);
  }

  /** det is a monotone function of nb, within 32..16384 in the low band and 8..16384 in the high band. */
  lemma ScaleMonotone(nb1: nat, nb2: nat, base: nat)
    requires base == 8 || base == 10
    requires nb1 <= nb2 <= 2048 * (base + 1)
    ensures (if base == 8 then 32 else 8) <= Scale(nb1, base) <= Scale(nb2, base) <= 16384
  {
    ScaleRange(nb1, base);
    ScaleRange(nb2, base);
    if nb2 == 2048 * (base + 1) {
      ScaleAtTop(base);
    } else if nb1 / 2048 == nb2 / 2048 {
      SameOctave(nb1, nb2, base);
    } else {
      InsideOctave(nb1, base);
      OctavesMonotone(nb1 / 2048 + 1, nb2 / 2048, base);
      InsideOctave(nb2, base);
    }
  }
}
