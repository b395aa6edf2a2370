/** The band structure of both coders, updated in place, block by block as in the source. */
module G722BandState {
  import opened CInt
  import opened G722Tables
  import opened G722Band
  import opened G722Coder

  /** The cast test of the source: lossless casts return unchanged, the others the nearest limit. */
  method SaturateByTest(amp: Int32) returns (r: Int16)
    ensures r == Saturate(amp)
  {
    var amp16: Int16 := ToInt16(amp);
    if amp == amp16 {
      return amp16;
    }
    if amp > 32767 {
      return 32767;
    }
    return -32768;
  }

  /** w is v after RECONS to DELAYA; the prediction is still the old one. */
  predicate Delayed(v: Band, diff: int, w: Band)
    requires Shaped(v)
  {
    var r0, p := Saturate(v.s + diff), v.p[0 := Saturate(v.sz + diff)];
    var ap2 := PoleTwo(p, v.a);
    var ap1 := PoleOne(p, v.a, ap2);
    w == Band(v.s, v.sp, v.sz, [r0, r0, v.r[1]], [v.a[0], ap1, ap2], [v.ap[0], ap1, ap2], [p[0], p[0], p[1]],
              [diff] + v.d[0 := diff][..6], [v.b[0]] + ZeroTaps(v, diff), [v.bp[0]] + ZeroTaps(v, diff),
              SignHistory(v, diff), v.nb, v.det)
  }

  /** The signs and taps one by one are the whole sequences. */
  lemma TapsFromEach(v: Band, diff: int, sg: seq<int>, bp: seq<int>)
    requires Shaped(v) && |sg| == 7 && |bp| == 7 && sg[0] == Sign(diff) && bp[0] == v.bp[0]
    requires forall k :: 1 <= k < 7 ==> sg[k] == Sign(v.d[k]) && bp[k] == Saturate(ZeroStep(v.b[k], v.d[k], diff))
    ensures sg == SignHistory(v, diff) && bp == [v.bp[0]] + ZeroTaps(v, diff)
  {
  }

  lemma DelayedOk(v: Band, diff: int, w: Band)
    requires PredictorOk(v) && -32768 <= diff <= 32767 && Delayed(v, diff, w)
    ensures |w.r| == 3 && AllInt16(w.r) && PolesOk(w.a)
    ensures |w.d| == 7 && |w.b| == 7 && AllInt16(w.d) && AllInt16(w.b)
  {
    PolesStayOk(v.p[0 := Saturate(v.sz + diff)], v.a);
  }

  /** The blocks in sequence are the adaptation. */
  lemma BlocksMakeAdapt(v: Band, diff: int, w: Band)
    requires Shaped(v) && Delayed(v, diff, w)
    ensures |w.a| == 3 && |w.r| == 3 && |w.b| == 7 && |w.d| == 7
    ensures var sp, sz := PoleSection(w.a, w.r), Saturate(ZeroSum(w.b, w.d, 1));
            w.(sp := sp, sz := sz, s := Saturate(sp + sz)) == Adapt(v, diff)
  {
    assert [diff] + v.d[0 := diff][..6] == [diff, diff] + v.d[1..6];
  }

  class BandState {
    var s: Int32
    var sp: Int32
    var sz: Int32
    var r: seq<Int32>
    var a: seq<Int32>
    var ap: seq<Int32>
    var p: seq<Int32>
    var d: seq<Int32>
    var b: seq<Int32>
    var bp: seq<Int32>
    var sg: seq<Int32>
    var nb: Int32
    var det: Int32

    function View(): Band
      reads this
    {
      Band(s, sp, sz, r, a, ap, p, d, b, bp, sg, nb, det)
    }

    constructor (initialDet: Int32)
      ensures View() == Start(initialDet)
    {
      s, sp, sz := 0, 0, 0;
      r, a, ap, p := [0, 0, 0], [0, 0, 0], [0, 0, 0], [0, 0, 0];
      d, b, bp, sg := [0, 0, 0, 0, 0, 0, 0], [0, 0, 0, 0, 0, 0, 0], [0, 0, 0, 0, 0, 0, 0], [0, 0, 0, 0, 0, 0, 0];
      nb, det := 0, initialDet;
    }

    /** RECONS and PARREC. */
    method Recons(diff: Int16)
      requires PredictorOk(View())
      modifies this`d, this`r, this`p
      ensures d == old(d)[0 := diff] && r == old(r)[0 := Saturate(s + diff)] && p == old(p)[0 := Saturate(sz + diff)]
    {
      d := d[0 := diff];
      var r0 := SaturateByTest(s + diff);
      r := r[0 := r0];
      var p0 := SaturateByTest(sz + diff);
      p := p[0 := p0];
    }

    method SignsOfP()
      requires |p| == 3 && |sg| == 7
      modifies this`sg
      ensures |sg| == 7 && forall k :: 0 <= k < 3 ==> sg[k] == Sign(p[k])
    {
      var i := 0;
      while i < 3
        invariant 0 <= i <= 3 && |sg| == 7
        invariant forall k :: 0 <= k < i ==> sg[k] == Sign(p[k])
      {
        sg := sg[i := p[i] / 32768];
        i := i + 1;
      }
    }

    /** UPPOL2 as the encoder writes it. */
    method Uppol2Encoder()
      requires |p| == 3 && |sg| == 7 && |ap| == 3 && PolesOk(a)
      modifies this`sg, this`ap
      ensures |sg| == 7 && ap == old(ap)[2 := PoleTwo(p, a)]
    {
      SignsOfP();
      var wd1: Int32 := SaturateByTest(a[1] * 4);
      var wd2: Int32 := if sg[0] == sg[1] then -wd1 else wd1;
      if wd2 > 32767 {
        wd2 := 32767;
      }
      var wd3: Int32 := wd2 / 128 + (if sg[0] == sg[2] then 128 else -128);
      var leak: Int32 := a[2] * 32512;
      wd3 := wd3 + leak / 32768;
      if wd3 > 12288 {
        wd3 := 12288;
      } else if wd3 < -12288 {
        wd3 := -12288;
      }
      ap := ap[2 := wd3];
    }

    /** UPPOL2 as the decoder writes it. */
    method Uppol2Decoder()
      requires |p| == 3 && |sg| == 7 && |ap| == 3 && PolesOk(a)
      modifies this`sg, this`ap
      ensures |sg| == 7 && ap == old(ap)[2 := PoleTwo(p, a)]
    {
      SignsOfP();
      var wd1: Int32 := SaturateByTest(a[1] * 4);
      var wd2: Int32 := if sg[0] == sg[1] then -wd1 else wd1;
      if wd2 > 32767 {
        wd2 := 32767;
      }
      var wd3: Int32 := if sg[0] == sg[2] then 128 else -128;
      wd3 := wd3 + wd2 / 128;
      var leak: Int32 := a[2] * 32512;
      wd3 := wd3 + leak / 32768;
      if wd3 > 12288 {
        wd3 := 12288;
      } else if wd3 < -12288 {
        wd3 := -12288;
      }
      ap := ap[2 := wd3];
    }

    method Uppol1()
      requires |p| == 3 && |sg| == 7 && |ap| == 3 && PolesOk(a) && -12288 <= ap[2] <= 12288
      modifies this`sg, this`ap
      ensures |sg| == 7 && ap == old(ap)[1 := PoleOne(p, a, old(ap[2]))]
    {
      sg := sg[0 := p[0] / 32768];
      sg := sg[1 := p[1] / 32768];
      var wd1: Int32 := if sg[0] == sg[1] then 192 else -192;
      var leak: Int32 := a[1] * 32640;
      var wd2: Int32 := leak / 32768;
      var ap1: Int32 := SaturateByTest(wd1 + wd2);
      ap := ap[1 := ap1];
      var wd3: Int32 := SaturateByTest(15360 - ap[2]);
      if ap[1] > wd3 {
        ap := ap[1 := wd3];
      } else if ap[1] < -wd3 {
        ap := ap[1 := -wd3];
      }
    }

    /** One tap of UPZERO. */
    method ZeroTap(i: nat, wd1: Int32, ghost diff: Int16)
      requires |sg| == 7 && |d| == 7 && |b| == 7 && |bp| == 7 && AllInt16(b) && 1 <= i < 7
      requires sg[0] == Sign(diff) && wd1 == if diff == 0 then 0 else 128
      modifies this`sg, this`bp
      ensures sg == old(sg)[i := Sign(d[i])] && bp == old(bp)[i := Saturate(ZeroStep(b[i], d[i], diff))]
    {
      sg := sg[i := d[i] / 32768];
      var wd2: Int32 := if sg[i] == sg[0] then wd1 else -wd1;
      var leak: Int32 := b[i] * 32640;
      var wd3: Int32 := leak / 32768;
      ZeroTapNeverClips(b[i], d[i], diff);
      var bpi := SaturateByTest(wd2 + wd3);
      bp := bp[i := bpi];
    }

    method Upzero(diff: Int16)
      requires Shaped(View()) && AllInt16(b)
      modifies this`sg, this`bp
      ensures sg == SignHistory(View(), diff) && bp == [old(bp[0])] + ZeroTaps(View(), diff)
    {
      ghost var v := View();
      var wd1: Int32 := if diff == 0 then 0 else 128;
      sg := sg[0 := diff / 32768];
      var i := 1;
      while i < 7
        invariant 1 <= i <= 7 && |sg| == 7 && |bp| == 7 && bp[0] == v.bp[0]
        invariant sg[0] == Sign(diff) && forall k :: 1 <= k < i ==> sg[k] == Sign(d[k])
        invariant forall k :: 1 <= k < i ==> bp[k] == Saturate(ZeroStep(b[k], d[k], diff))
      {
        ZeroTap(i, wd1, diff);
        i := i + 1;
      }
      TapsFromEach(v, diff, sg, bp);
    }

    method Delaya()
      requires Shaped(View())
      modifies this`d, this`b, this`r, this`p, this`a
      ensures d == [old(d[0])] + old(d[..6]) && b == [old(b[0])] + bp[1..]
      ensures r == [old(r[0]), old(r[0]), old(r[1])] && p == [old(p[0]), old(p[0]), old(p[1])]
      ensures a == [old(a[0]), ap[1], ap[2]]
    {
      var i := 6;
      while i > 0
        invariant r == old(r) && p == old(p) && a == old(a)
        invariant 0 <= i <= 6 && |d| == 7 && |b| == 7
        invariant forall k :: 0 <= k <= i ==> d[k] == old(d[k]) && b[k] == old(b[k])
        invariant forall k :: i < k < 7 ==> d[k] == old(d[k - 1]) && b[k] == bp[k]
      {
        d := d[i := d[i - 1]];
        b := b[i := bp[i]];
        i := i - 1;
      }
      assert d == [old(d[0])] + old(d[..6]) && b == [old(b[0])] + bp[1..];
      i := 2;
      while i > 0
        invariant d == [old(d[0])] + old(d[..6]) && b == [old(b[0])] + bp[1..]
        invariant 0 <= i <= 2 && |r| == 3 && |p| == 3 && |a| == 3
        invariant forall k :: 0 <= k <= i ==> r[k] == old(r[k]) && p[k] == old(p[k]) && a[k] == old(a[k])
        invariant forall k :: i < k < 3 ==> r[k] == old(r[k - 1]) && p[k] == old(p[k - 1]) && a[k] == ap[k]
      {
        r := r[i := r[i - 1]];
        p := p[i := p[i - 1]];
        a := a[i := ap[i]];
        i := i - 1;
      }
    }

    method Filtep()
      requires |r| == 3 && AllInt16(r) && PolesOk(a)
      modifies this`sp
      ensures sp == PoleSection(a, r)
    {
      var wd1: Int32 := SaturateByTest(r[1] + r[1]);
      MulBound(a[1], wd1, 27648, 32768);
      var pole1: Int32 := a[1] * wd1;
      wd1 := pole1 / 32768;
      var wd2: Int32 := SaturateByTest(r[2] + r[2]);
      MulBound(a[2], wd2, 12288, 32768);
      var pole2: Int32 := a[2] * wd2;
      wd2 := pole2 / 32768;
      sp := SaturateByTest(wd1 + wd2);
    }

    method Filtez()
      requires |d| == 7 && |b| == 7 && AllInt16(d) && AllInt16(b)
      modifies this`sz
      ensures sz == Saturate(ZeroSum(b, d, 1))
    {
      sz := 0;
      var i := 6;
      while i > 0
        invariant 0 <= i <= 6
        invariant sz == ZeroSum(b, d, i + 1) && Abs(sz) <= (6 - i) * 32768
      {
        var wd1: Int32 := SaturateByTest(d[i] + d[i]);
        MulBound(b[i], wd1, 32768, 32768);
        var tap: Int32 := b[i] * wd1;
        sz := sz + tap / 32768;
        i := i - 1;
      }
      sz := SaturateByTest(sz);
    }

    /** FILTEP, FILTEZ and PREDIC. */
    method Predict()
      requires |r| == 3 && AllInt16(r) && PolesOk(a) && |d| == 7 && |b| == 7 && AllInt16(d) && AllInt16(b)
      modifies this`sp, this`sz, this`s
      ensures sp == PoleSection(a, r) && sz == Saturate(ZeroSum(b, d, 1)) && s == Saturate(sp + sz)
    {
      Filtep();
      Filtez();
      s := SaturateByTest(sp + sz);
    }

    /** UPPOL2, UPPOL1 and UPZERO. The two coders differ only in how they write UPPOL2. */
    method Update(diff: Int16, encoder: bool)
      requires Shaped(View()) && PolesOk(a) && AllInt16(b)
      modifies this`sg, this`ap, this`bp
      ensures sg == SignHistory(View(), diff) && bp == [old(bp[0])] + ZeroTaps(View(), diff)
      ensures ap == [old(ap[0]), PoleOne(p, a, PoleTwo(p, a)), PoleTwo(p, a)]
    {
      if encoder {
        Uppol2Encoder();
      } else {
        Uppol2Decoder();
      }
      Uppol1();
      Upzero(diff);
    }

    method Adaptation(diff: Int16, encoder: bool)
      requires PredictorOk(View())
      modifies this
      ensures Delayed(old(View()), diff, View())
    {
      Recons(diff);
      Update(diff, encoder);
      Delaya();
    }

    /** Block 4. */
    method Block4(diff: Int16, encoder: bool)
      requires PredictorOk(View())
      modifies this
      ensures View() == Adapt(old(View()), diff) && PredictorOk(View())
    {
      AdaptOk(View(), diff);
      Adaptation(diff, encoder);
      DelayedOk(old(View()), diff, View());
      BlocksMakeAdapt(old(View()), diff, View());
      Predict();
    }

    /** LOGSCL and LOGSCH as the encoder writes them: nb is limited in place. */
    method LogScaleEncoder(step: int, top: int)
      requires 0 <= nb <= 32767 && -32768 <= step <= 32767 && 0 <= top <= 32767
      modifies this`nb
      ensures nb == NextNb(old(nb), step, top)
    {
      var wd: Int32 := nb * 127;
      wd := wd / 128;
      nb := wd + step;
      if nb < 0 {
        nb := 0;
      } else if nb > top {
        nb := top;
      }
    }

    /** LOGSCL and LOGSCH as the decoder writes them: a local is limited, then stored. */
    method LogScaleDecoder(step: int, top: int)
      requires 0 <= nb <= 32767 && -32768 <= step <= 32767 && 0 <= top <= 32767
      modifies this`nb
      ensures nb == NextNb(old(nb), step, top)
    {
      var wd1: Int32 := nb * 127;
      wd1 := wd1 / 128;
      wd1 := wd1 + step;
      if wd1 < 0 {
        wd1 := 0;
      } else if wd1 > top {
        wd1 := top;
      }
      nb := wd1;
    }

    /** SCALEL (base 8) and SCALEH (base 10). */
    method Antilog(base: nat)
      requires base == 8 || base == 10
      requires 0 <= nb <= 2048 * (base + 1)
      modifies this`det
      ensures det == Scale(nb, base)
    {
      ScaleRange(nb, base);
      var wd1 := nb / 64 % 32;
      var wd2 := base - nb / 2048;
      var wd3 := if wd2 < 0 then Shl(ILB[wd1], -wd2) else Shr(ILB[wd1], wd2);
      det := 4 * wd3;
    }

    /** INVQAL and INVQAH: scale a table level by the step size. */
    method Inverse(level: int) returns (diff: Int16)
      requires 0 <= det <= 16384 && -32768 < level < 32768
      ensures diff == det * level / 32768
    {
      ProductRange(det, level);
      var product: Int32 := det * level;
      diff := product / 32768;
    }
  }
}
