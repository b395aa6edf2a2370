/** The adaptation against the equations it rounds: sections 3.5 and 3.6 of ITU-T G.722. Coefficients are multiples of
    2^-14, logarithms of step sizes multiples of 2^-11. */
module G722Ideal {
  import opened CInt
  import opened G722Tables
  import opened G722Band
  import opened G722Coder

  predicate In16(x: int) {
    -32768 <= x <= 32767
  }

  function Sgn(x: int): int {
    if x < 0 then -1 else 1
  }

  /** The current difference has no sign if it is zero. */
  function SgnOrZero(x: int): int {
    if x == 0 then 0 else Sgn(x)
  }

  lemma SignIsSgn(x: int, y: int)
    requires In16(x) && In16(y)
    ensures Sgn(x) * Sgn(y) == if Sign(x) == Sign(y) then 1 else -1
    ensures SgnOrZero(x) * Sgn(y) == if x == 0 then 0 else if Sign(x) == Sign(y) then 1 else -1
  {
  }

  /** A factor over 2^15 is a smaller one over a smaller power. */
  lemma Thin(x: int)
    ensures x * 32640 / 32768 == 255 * x / 256 && x * 32512 / 32768 == 127 * x / 128
  {
  }

  // Zero section: b_i(n) = (1 - 2^-8) b_i(n - 1) + 2^-7 sgn d(n) sgn d(n - i).

  /** 256 times the new coefficient. */
  function ZeroEquation(b: int, old_d: int, d: int): int {
    255 * b + 256 * 128 * (SgnOrZero(d) * Sgn(old_d))
  }

  lemma ZeroStepIsEquation(b: int, old_d: int, d: int)
    requires In16(old_d) && In16(d)
    ensures 0 <= ZeroEquation(b, old_d, d) - 256 * ZeroStep(b, old_d, d) < 256
  {
    Thin(b);
    SignIsSgn(d, old_d);
  }

  /** The push is 128, towards the agreement of the signs. */
  lemma PushFollowsSigns(b: int, old_d: int, d: int)
    requires In16(old_d) && In16(d)
    ensures (ZeroStep(b, old_d, d) - ZeroStep(b, old_d, 0)) * (old_d * d) >= 0
    ensures d != 0 ==> Abs(ZeroStep(b, old_d, d) - ZeroStep(b, old_d, 0)) == 128
  {
    SignOfProduct(old_d, d);
    SignOfProduct(ZeroStep(b, old_d, d) - ZeroStep(b, old_d, 0), old_d * d);
  }

  lemma SignOfProduct(x: int, y: int)
    ensures (x <= 0 && y <= 0) || (x >= 0 && y >= 0) ==> x * y >= 0
    ensures (x <= 0 && y >= 0) || (x >= 0 && y <= 0) ==> x * y <= 0
  {
  }

  // Pole section: a_1(n) = (1 - 2^-8) a_1(n - 1) + 3 * 2^-8 sgn p(n) sgn p(n - 1), within 1 - 2^-4 - a_2(n), and
  // a_2(n) = (1 - 2^-7) a_2(n - 1) + 2^-7 (sgn p(n) sgn p(n - 2) - f sgn p(n) sgn p(n - 1)), within 0.75, where f is
  // 4 a_1(n - 1) up to 2 and -2.

  function PoleOneEquation(p: seq<int>, a: seq<int>): int
    requires |p| == 3 && |a| == 3
  {
    255 * a[1] + 256 * 192 * (Sgn(p[0]) * Sgn(p[1]))
  }

  predicate Sixteen(q: seq<int>) {
    forall i :: 0 <= i < |q| ==> In16(q[i])
  }

  lemma PoleOneIsEquation(p: seq<int>, a: seq<int>, ap2: int)
    requires |p| == 3 && |a| == 3 && Sixteen(p) && Sixteen(a) && -12288 <= ap2 <= 12288
    ensures var limit := 256 * (15360 - ap2);
            Abs(256 * PoleOne(p, a, ap2) - Clamp(PoleOneEquation(p, a), -limit, limit)) < 256
  {
    Thin(a[1]);
    SignIsSgn(p[0], p[1]);
  }

  /** 128 times the new coefficient. */
  function PoleTwoEquation(p: seq<int>, a: seq<int>): int
    requires |p| == 3 && |a| == 3
  {
    127 * a[2] + 128 * 128 * (Sgn(p[0]) * Sgn(p[2])) - Sgn(p[0]) * Sgn(p[1]) * Clamp(4 * a[1], -32768, 32768)
  }

  lemma FirstPolePart(a1: int, agree: bool)
    ensures var wd1 := Saturate(a1 * 4);
            var wd2 := if agree then -wd1 else wd1;
            var part := 128 * ((if wd2 > 32767 then 32767 else wd2) / 128);
            -129 < part + (if agree then 1 else -1) * Clamp(4 * a1, -32768, 32768) <= 1
  {
  }

  lemma ClampScaled(w: int, e: int)
    requires -257 <= 128 * w - e <= 1
    ensures Abs(128 * Clamp(w, -12288, 12288) - Clamp(e, -128 * 12288, 128 * 12288)) <= 257
  {
  }

  lemma PoleTwoIsEquation(p: seq<int>, a: seq<int>)
    requires |p| == 3 && |a| == 3 && Sixteen(p) && Sixteen(a)
    ensures Abs(128 * PoleTwo(p, a) - Clamp(PoleTwoEquation(p, a), -128 * 12288, 128 * 12288)) <= 257
  {
    Thin(a[2]);
    SignIsSgn(p[0], p[1]);
    SignIsSgn(p[0], p[2]);
    FirstPolePart(a[1], Sign(p[0]) == Sign(p[1]));
    var wd1 := Saturate(a[1] * 4);
    var wd2 := if Sign(p[0]) == Sign(p[1]) then -wd1 else wd1;
    ClampScaled((if wd2 > 32767 then 32767 else wd2) / 128 + (if Sign(p[0]) == Sign(p[2]) then 128 else -128)
                + a[2] * 32512 / 32768, PoleTwoEquation(p, a));
  }

  lemma Doubled(c: int, x: int)
    requires -16384 <= x <= 16383
    ensures c * Saturate(2 * x) == 2 * (c * x)
  {
  }

  // The prediction: s_p(n) = a_1 r(n - 1) + a_2 r(n - 2), s_z(n) = b_1 d(n - 1) + ... + b_6 d(n - 6).

  lemma PoleSectionIsEquation(a: seq<int>, r: seq<int>)
    requires |a| == 3 && |r| == 3 && forall i :: 0 <= i < 3 ==> -16384 <= r[i] <= 16383
    requires var exact := a[1] * r[1] + a[2] * r[2]; -16384 * 32768 <= exact < 16384 * 32767
    ensures 0 <= a[1] * r[1] + a[2] * r[2] - 16384 * PoleSection(a, r) < 2 * 16384
  {
    Doubled(a[1], r[1]);
    Doubled(a[2], r[2]);
  }

  function Product(b: seq<int>, d: seq<int>, n: nat): int
    requires |b| == 7 && |d| == 7 && 1 <= n <= 7
    decreases 7 - n
  {
    if n == 7 then 0 else Product(b, d, n + 1) + b[n] * d[n]
  }

  lemma {:induction false} ZeroSumIsEquation(b: seq<int>, d: seq<int>, n: nat)
    requires |b| == 7 && |d| == 7 && 1 <= n <= 7 && forall i :: 0 <= i < 7 ==> -16384 <= d[i] <= 16383
    ensures 0 <= Product(b, d, n) - 16384 * ZeroSum(b, d, n) <= (7 - n) * 16384
    decreases 7 - n
  {
    if n < 7 {
      ZeroSumIsEquation(b, d, n + 1);
      Doubled(b[n], d[n]);
    }
  }

  // The whole of block 4.

  /** What p is extended by, with the old values behind it. */
  function PartialLine(v: Band, d: int): (p: seq<int>)
    requires Shaped(v)
    ensures |p| == 3
  {
    [Saturate(v.sz + d), v.p[1], v.p[2]]
  }

  lemma TapsFollowEquations(v: Band, d: int, k: nat)
    requires PredictorOk(v) && In16(d) && 1 <= k < 7
    ensures 0 <= ZeroEquation(v.b[k], v.d[k], d) - 256 * Adapt(v, d).b[k] < 256
  {
    TapOfBlock(v, d, k);
    ZeroStepIsEquation(v.b[k], v.d[k], d);
  }

  lemma PolesOfBlock(v: Band, d: int)
    requires Shaped(v)
    ensures var w, p := Adapt(v, d), PartialLine(v, d);
            w.a[2] == PoleTwo(p, v.a) && w.a[1] == PoleOne(p, v.a, PoleTwo(p, v.a))
  {
    assert v.p[0 := Saturate(v.sz + d)] == PartialLine(v, d);
  }

  lemma PolesInRange(v: Band, d: int)
    requires PredictorOk(v)
    ensures Sixteen(PartialLine(v, d)) && Sixteen(v.a)
  {
  }

  /** Block 4 computes the equations, rounded and limited. */
  lemma AdaptFollowsEquations(v: Band, d: int)
    requires PredictorOk(v) && In16(d)
    ensures var w, p := Adapt(v, d), PartialLine(v, d);
            && (forall k :: 1 <= k < 7 ==> 0 <= ZeroEquation(v.b[k], v.d[k], d) - 256 * w.b[k] < 256)
            && (var limit := 256 * (15360 - w.a[2]);
                Abs(256 * w.a[1] - Clamp(PoleOneEquation(p, v.a), -limit, limit)) < 256)
            && Abs(128 * w.a[2] - Clamp(PoleTwoEquation(p, v.a), -128 * 12288, 128 * 12288)) <= 257
  {
    var w, p := Adapt(v, d), PartialLine(v, d);
    PolesInRange(v, d);
    PolesOfBlock(v, d);
    PoleTwoIsEquation(p, v.a);
    PoleOneIsEquation(p, v.a, PoleTwo(p, v.a));
    forall k | 1 <= k < 7
      ensures 0 <= ZeroEquation(v.b[k], v.d[k], d) - 256 * w.b[k] < 256
    {
      TapsFollowEquations(v, d, k);
    }
  }

  // Over a run: the lines hold what they are named after.

  /** The lines move on by one place; p and r take in what d reconstructs. */
  predicate LinesMove(v: Band, d: int, w: Band) {
    && Shaped(v) && Shaped(w)
    && w.d[1] == d && (forall k :: 2 <= k < 7 ==> w.d[k] == v.d[k - 1])
    && w.r[1] == Saturate(v.s + d) && w.r[2] == v.r[1]
    && w.p[1] == Saturate(v.sz + d) && w.p[2] == v.p[1]
  }

  lemma BlockMovesLines(v: Band, d: int)
    requires Shaped(v)
    ensures LinesMove(v, d, Adapt(v, d))
  {
  }

  lemma OutputOfBlock(v: Band, d: int)
    requires Shaped(v)
    ensures var w := Adapt(v, d);
            && w.sp == PoleSection(w.a, w.r) && w.sz == Saturate(ZeroSum(w.b, w.d, 1))
            && w.s == Saturate(w.sp + w.sz)
  {
  }

  /** So they do whenever a code adapts a band. */
  lemma LowBandMovesLines(v: Band, ril: nat)
    requires Shaped(v) && ril < 16
    ensures LinesMove(v, v.det * QM4[ril] / 32768, AdaptLow(v, ril))
  {
    var nb := NextNb(v.nb, LowStep(ril), LOW_TOP);
    BlockMovesLines(v.(nb := nb, det := Scale(nb, 8)), v.det * QM4[ril] / 32768);
  }

  lemma HighBandMovesLines(v: Band, ihigh: nat)
    requires Shaped(v) && ihigh < 4
    ensures LinesMove(v, v.det * QM2[ihigh] / 32768, AdaptHigh(v, ihigh))
  {
    var nb := NextNb(v.nb, HighStep(ihigh), HIGH_TOP);
    BlockMovesLines(v.(nb := nb, det := Scale(nb, 10)), v.det * QM2[ihigh] / 32768);
  }

  /** In any run of such steps, k steps back stand the difference of then, and the signal and the partial signal that it
      reconstructed. */
  lemma {:induction false} LinesHoldHistory(states: seq<Band>, ds: seq<int>, n: nat, k: nat)
    requires |states| == |ds| + 1 && 1 <= k < 7 && k <= n <= |ds|
    requires forall i :: 0 <= i < |ds| ==> LinesMove(states[i], ds[i], states[i + 1])
    ensures Shaped(states[n]) && states[n].d[k] == ds[n - k]
    ensures k < 3 ==> states[n].r[k] == Saturate(states[n - k].s + ds[n - k])
                      && states[n].p[k] == Saturate(states[n - k].sz + ds[n - k])
    decreases k
  {
    assert LinesMove(states[n - 1], ds[n - 1], states[n]);
    if k > 1 {
      LinesHoldHistory(states, ds, n - 1, k - 1);
    }
  }

  // The adaptation is towards the signal.

  lemma ProductsOrdered(x: int, y: int, o: int)
    requires (x - y) * o >= 0
    ensures x * o / 32768 >= y * o / 32768
  {
    assert (x - y) * o == x * o - y * o;
  }

  /** A tap pushed by d contributes more in the direction of d than one that is only leaked. */
  lemma TapFollows(b: int, old_d: int, d: int)
    requires In16(old_d) && In16(d)
    ensures var pushed, leaked, o := ZeroStep(b, old_d, d), ZeroStep(b, old_d, 0), Saturate(2 * old_d);
            (d >= 0 ==> pushed * o / 32768 >= leaked * o / 32768) && (d <= 0 ==> pushed * o / 32768 <= leaked * o / 32768)
  {
    var x, y, o := ZeroStep(b, old_d, d), ZeroStep(b, old_d, 0), Saturate(2 * old_d);
    SignOfProduct(x - y, o);
    SignOfProduct(y - x, o);
    if d >= 0 {
      ProductsOrdered(x, y, o);
    }
    if d <= 0 {
      ProductsOrdered(y, x, o);
    }
  }

  lemma TapOfBlock(v: Band, d: int, n: nat)
    requires PredictorOk(v) && 1 <= n < 7
    ensures Adapt(v, d).b[n] == ZeroStep(v.b[n], v.d[n], d)
  {
    ZeroTapNeverClips(v.b[n], v.d[n], d);
    assert Adapt(v, d).b[n] == Saturate(ZeroStep(v.b[n], v.d[n], d));
  }

  lemma {:induction false} SumsFollow(b: seq<int>, c: seq<int>, past: seq<int>, n: nat)
    requires |b| == 7 && |c| == 7 && |past| == 7 && 1 <= n <= 7
    requires forall k :: 1 <= k < 7 ==> b[k] * Saturate(2 * past[k]) / 32768 >= c[k] * Saturate(2 * past[k]) / 32768
    ensures ZeroSum(b, past, n) >= ZeroSum(c, past, n)
    decreases 7 - n
  {
    if n < 7 {
      SumsFollow(b, c, past, n + 1);
    }
  }

  /** The taps that made up the prediction from the past are moved so that it would have been farther towards the
      difference that showed: farther than by the leak alone. */
  lemma ZeroSectionFollows(v: Band, d: int)
    requires PredictorOk(v) && In16(d)
    ensures var pushed, leaked := ZeroSum(Adapt(v, d).b, v.d, 1), ZeroSum(Adapt(v, 0).b, v.d, 1);
            (d >= 0 ==> pushed >= leaked) && (d <= 0 ==> pushed <= leaked)
  {
    var b, c := Adapt(v, d).b, Adapt(v, 0).b;
    forall k | 1 <= k < 7
      ensures d >= 0 ==> b[k] * Saturate(2 * v.d[k]) / 32768 >= c[k] * Saturate(2 * v.d[k]) / 32768
      ensures d <= 0 ==> b[k] * Saturate(2 * v.d[k]) / 32768 <= c[k] * Saturate(2 * v.d[k]) / 32768
    {
      TapOfBlock(v, d, k);
      TapOfBlock(v, 0, k);
      TapFollows(v.b[k], v.d[k], d);
    }
    if d >= 0 {
      SumsFollow(b, c, v.d, 1);
    }
    if d <= 0 {
      SumsFollow(c, b, v.d, 1);
    }
  }

  // The step size: log(n) = (1 - 2^-7) log(n - 1) + W, between 0 and the top, and its exponential.

  lemma NextNbIsEquation(nb: int, step: int, top: nat)
    ensures Abs(128 * NextNb(nb, step, top) - Clamp(127 * nb + 128 * step, 0, 128 * top)) < 128
  {
  }

  /** The farther out the level, the larger the step size becomes; the innermost levels make it smaller. */
  lemma LowStepGrowsWithLevel(i: nat, j: nat)
    requires i < 16 && j < 16 && Abs(QM4[i]) <= Abs(QM4[j])
    ensures LowStep(i) <= LowStep(j)
    ensures LowStep(i) < 0 <==> Abs(QM4[i]) < 2584
  {
  }

  lemma HighStepGrowsWithLevel(i: nat)
    requires i < 4
    ensures HighStep(i) < 0 <==> Abs(QM2[i]) < 7408
    ensures HighStep(i) == if Abs(QM2[i]) < 7408 then -214 else 798
  {
  }

  /** Each mantissa is 2093/2048 times the one before, and 32 of these steps are an octave. */
  lemma MantissasAreGeometric(i: nat)
    requires i < 32
    ensures var one: int, following: int := ILB[i], if i == 31 then 4096 else ILB[i + 1];
            Abs(2048 * following - 2093 * one) <= 2200
  {
  }

  lemma {:induction false} ShrOnce(x: int, n: nat)
    ensures Shr(x, n + 1) == Shr(x, n) / 2
    decreases n
  {
    if n > 0 {
      ShrOnce(x / 2, n - 1);
    }
  }

  lemma OctaveUp(nb: nat)
    ensures (nb + 2048) / 2048 == nb / 2048 + 1 && (nb + 2048) / 64 % 32 == nb / 64 % 32
  {
    MantissaOf(nb);
    MantissaOf(nb + 2048);
  }

  /** An octave more is twice the step size, but for the bit shifted out. */
  lemma ScaleDoubles(nb: nat, base: nat)
    requires nb / 2048 < base
    ensures 2 * Scale(nb, base) <= Scale(nb + 2048, base) <= 2 * Scale(nb, base) + 4
  {
    OctaveUp(nb);
    ScaleIs(nb, base);
    ScaleIs(nb + 2048, base);
    ShrOnce(ILB[nb / 64 % 32], base - nb / 2048 - 1);
  }
}
