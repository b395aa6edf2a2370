/** How far the decoded bands can be from the coded ones. */
module G722Fidelity {
  import opened CInt
  import opened G722Tables
  import opened G722Band
  import opened G722Coder
  import opened Streams

  lemma Q6Monotone(i: nat, j: nat)
    requires i <= j < 30
    ensures Q6[i] <= Q6[j]
  {
  }

  lemma ProductMonotone(x: nat, y: nat, det: nat)
    requires x <= y
    ensures x * det <= y * det
  {
  }

  lemma ThresholdMonotone(i: nat, j: nat, det: nat)
    requires i <= j < 30
    ensures 0 <= Threshold(i, det) <= Threshold(j, det)
  {
    Q6Monotone(i, j);
    ProductMonotone(Q6[i], Q6[j], det);
    ProductMonotone(0, Q6[i], det);
  }

  predicate InCell(wd: int, det: int, i: nat)
    requires 1 <= i <= 30
  {
    Threshold(i - 1, det) <= wd && (i < 30 ==> wd < Threshold(i, det))
  }

  lemma {:induction false} SearchFrom(wd: nat, det: nat, i: nat)
    requires 1 <= i <= 30 && Threshold(i - 1, det) <= wd
    ensures InCell(wd, det, Cell(wd, det, i))
    decreases 30 - i
  {
    if i < 30 && wd >= Threshold(i, det) {
      SearchFrom(wd, det, i + 1);
    }
  }

  /** The search finds the one cell that holds the magnitude. */
  lemma CellIsUnique(wd: nat, det: nat, i: nat)
    requires 1 <= i <= 30
    ensures InCell(wd, det, i) <==> i == Cell(wd, det, 1)
  {
    SearchFrom(wd, det, 1);
    var c := Cell(wd, det, 1);
    if i < c {
      ThresholdMonotone(i, c - 1, det);
    } else if c < i {
      ThresholdMonotone(c, i - 1, det);
    }
  }

  // At 56 and 48 kbit/s the dropped bits merge cells: the decoder sees the cells First(i)+1 .. Last(i) as one.

  function First(i: nat, bits: Rate): nat
    requires 1 <= i <= 30
  {
    if bits == 8 then i - 1
    else if bits == 7 then (i - 1) / 2 * 2
    else if i <= 2 then 0 else (i - 3) / 4 * 4 + 2
  }

  function Last(i: nat, bits: Rate): nat
    requires 1 <= i <= 30
  {
    if bits == 8 then i
    else if bits == 7 then First(i, bits) + 2
    else if i <= 2 then 2 else First(i, bits) + 4
  }

  function LevelOf(ilow: nat, bits: Rate): int
    requires ilow < 64
  {
    if bits == 8 then QM6[ilow] else if bits == 7 then QM5[ilow / 2] else QM4[ilow / 4]
  }

  lemma PositiveLevel(c: nat)
    requires 32 <= c < 62
    ensures QM6[c] >= 0 && QM5[c / 2] >= 0 && QM4[c / 4] >= 0
  {
  }

  lemma NegativeLevelOf(c: nat)
    requires 4 <= c < 32 || 62 <= c < 64
    ensures QM6[c] <= 0 && QM5[c / 2] <= 0 && QM4[c / 4] <= 0
  {
  }

  lemma CodeOf(i: nat)
    requires 1 <= i <= 30
    ensures ILP[i] == 62 - i && ILN[i] == if i <= 2 then 64 - i else 34 - i
  {
    PositiveCode(i);
    NegativeCode(i);
  }

  lemma PositiveCode(i: nat)
    requires 1 <= i <= 30
    ensures ILP[i] == 62 - i
  {
  }

  lemma NegativeCode(i: nat)
    requires 1 <= i <= 30
    ensures ILN[i] == if i <= 2 then 64 - i else 34 - i
  {
  }

  // Each table is looked through in short ranges.

  lemma SixFirst(i: nat)
    requires 1 <= i < 8
    ensures 8 * Q6[i - 1] < QM6[62 - i] < 8 * Q6[i]
  {
  }

  lemma SixSecond(i: nat)
    requires 8 <= i < 15
    ensures 8 * Q6[i - 1] < QM6[62 - i] < 8 * Q6[i]
  {
  }

  lemma SixThird(i: nat)
    requires 15 <= i < 22
    ensures 8 * Q6[i - 1] < QM6[62 - i] < 8 * Q6[i]
  {
  }

  lemma SixFourth(i: nat)
    requires 22 <= i < 30
    ensures 8 * Q6[i - 1] < QM6[62 - i] < 8 * Q6[i]
  {
  }

  lemma SixPositive(i: nat)
    requires 1 <= i < 30
    ensures 8 * Q6[i - 1] < QM6[62 - i] < 8 * Q6[i]
  {
    if i < 8 {
      SixFirst(i);
    } else if i < 15 {
      SixSecond(i);
    } else if i < 22 {
      SixThird(i);
    } else {
      SixFourth(i);
    }
  }

  lemma SixNegativeFirst(i: nat)
    requires 3 <= i < 12
    ensures 8 * Q6[i - 1] < -QM6[34 - i] < 8 * Q6[i]
  {
  }

  lemma SixNegativeSecond(i: nat)
    requires 12 <= i < 21
    ensures 8 * Q6[i - 1] < -QM6[34 - i] < 8 * Q6[i]
  {
  }

  lemma SixNegativeThird(i: nat)
    requires 21 <= i < 30
    ensures 8 * Q6[i - 1] < -QM6[34 - i] < 8 * Q6[i]
  {
  }

  lemma SixNegative(i: nat)
    requires 3 <= i < 30
    ensures 8 * Q6[i - 1] < -QM6[34 - i] < 8 * Q6[i]
  {
    if i < 12 {
      SixNegativeFirst(i);
    } else if i < 21 {
      SixNegativeSecond(i);
    } else {
      SixNegativeThird(i);
    }
  }

  lemma SixSmallNegative(i: nat)
    requires 1 <= i <= 2
    ensures 8 * Q6[i - 1] < -QM6[64 - i] < 8 * Q6[i]
  {
  }

  lemma FivePositiveFirst(k: nat)
    requires k < 7
    ensures 8 * Q6[2 * k] < QM5[30 - k] < 8 * Q6[2 * k + 2]
  {
  }

  lemma FivePositiveSecond(k: nat)
    requires 7 <= k < 14
    ensures 8 * Q6[2 * k] < QM5[30 - k] < 8 * Q6[2 * k + 2]
  {
  }

  lemma FivePositive(k: nat)
    requires k < 14
    ensures 8 * Q6[2 * k] < QM5[30 - k] < 8 * Q6[2 * k + 2]
  {
    if k < 7 {
      FivePositiveFirst(k);
    } else {
      FivePositiveSecond(k);
    }
  }

  lemma FiveNegativeFirst(k: nat)
    requires 1 <= k < 7
    ensures 8 * Q6[2 * k] < -QM5[16 - k] < 8 * Q6[2 * k + 2]
  {
  }

  lemma FiveNegativeSecond(k: nat)
    requires 7 <= k < 14
    ensures 8 * Q6[2 * k] < -QM5[16 - k] < 8 * Q6[2 * k + 2]
  {
  }

  lemma FiveSmallest()
    ensures 8 * Q6[0] < -QM5[31] < 8 * Q6[2]
  {
  }

  lemma FiveNegative(k: nat)
    requires k < 14
    ensures 8 * Q6[2 * k] < -QM5[if k == 0 then 31 else 16 - k] < 8 * Q6[2 * k + 2]
  {
    if k == 0 {
      FiveSmallest();
    } else if k < 7 {
      FiveNegativeFirst(k);
    } else {
      FiveNegativeSecond(k);
    }
  }

  lemma FourLevels(k: nat)
    requires 1 <= k <= 6
    ensures 8 * Q6[4 * k - 2] < QM4[15 - k] < 8 * Q6[4 * k + 2]
    ensures QM4[8 - k] == -QM4[15 - k] && QM4[15] == 0
  {
  }

  /** The output levels lie inside their merged cells and have the sign of the code,
      but for the zero level of 48 kbit/s. */
  predicate LevelFits(m: int, i: nat, bits: Rate)
    requires 1 <= i <= 30 && Last(i, bits) < 30
  {
    if bits == 6 && i <= 2 then m == 0 else 8 * Q6[First(i, bits)] < m < 8 * Q6[Last(i, bits)]
  }

  lemma FitsAtSix(i: nat)
    requires 1 <= i < 30
    ensures ILP[i] < 64 && ILN[i] < 64
    ensures LevelFits(LevelOf(ILP[i], 8), i, 8) && LevelFits(-LevelOf(ILN[i], 8), i, 8)
  {
    CodeOf(i);
    SixPositive(i);
    if i <= 2 {
      SixSmallNegative(i);
    } else {
      SixNegative(i);
    }
  }

  lemma CodesAtFive(i: nat)
    requires 1 <= i <= 28
    ensures var k := (i - 1) / 2;
            && (62 - i) / 2 == 30 - k && (if i <= 2 then 64 - i else 34 - i) / 2 == (if k == 0 then 31 else 16 - k)
            && First(i, 7) == 2 * k && Last(i, 7) == 2 * k + 2 && k < 14
  {
  }

  lemma FivePositiveFits(i: nat)
    requires 1 <= i <= 28
    ensures LevelFits(LevelOf(62 - i, 7), i, 7)
  {
    CodesAtFive(i);
    FivePositive((i - 1) / 2);
  }

  lemma FiveNegativeFits(i: nat)
    requires 1 <= i <= 28
    ensures LevelFits(-LevelOf(if i <= 2 then 64 - i else 34 - i, 7), i, 7)
  {
    CodesAtFive(i);
    FiveNegative((i - 1) / 2);
  }

  lemma FitsAtFive(i: nat)
    requires 1 <= i <= 28
    ensures ILP[i] < 64 && ILN[i] < 64
    ensures LevelFits(LevelOf(ILP[i], 7), i, 7) && LevelFits(-LevelOf(ILN[i], 7), i, 7)
  {
    CodeOf(i);
    FivePositiveFits(i);
    FiveNegativeFits(i);
  }

  lemma CodesAtFour(i: nat)
    requires 3 <= i <= 26
    ensures var k := (i + 1) / 4;
            && 1 <= k <= 6 && (62 - i) / 4 == 15 - k && (34 - i) / 4 == 8 - k
            && First(i, 6) == 4 * k - 2 && Last(i, 6) == 4 * k + 2
  {
  }

  lemma FourFits(i: nat)
    requires 1 <= i <= 26
    ensures LevelFits(LevelOf(62 - i, 6), i, 6)
    ensures LevelFits(-LevelOf(if i <= 2 then 64 - i else 34 - i, 6), i, 6)
  {
    if i <= 2 {
      FourLevels(1);
    } else {
      CodesAtFour(i);
      FourLevels((i + 1) / 4);
    }
  }

  lemma FitsAtFour(i: nat)
    requires 1 <= i <= 26
    ensures ILP[i] < 64 && ILN[i] < 64
    ensures LevelFits(LevelOf(ILP[i], 6), i, 6) && LevelFits(-LevelOf(ILN[i], 6), i, 6)
  {
    CodeOf(i);
    FourFits(i);
  }

  lemma NotOverloaded(i: nat, bits: Rate)
    requires 1 <= i <= 30 && Last(i, bits) < 30
    ensures i <= if bits == 8 then 29 else if bits == 7 then 28 else 26
  {
  }

  lemma LevelsFit(i: nat, bits: Rate)
    requires 1 <= i <= 30 && Last(i, bits) < 30
    ensures ILP[i] < 64 && ILN[i] < 64
    ensures LevelFits(LevelOf(ILP[i], bits), i, bits) && LevelFits(-LevelOf(ILN[i], bits), i, bits)
  {
    NotOverloaded(i, bits);
    if bits == 8 {
      FitsAtSix(i);
    } else if bits == 7 {
      FitsAtFive(i);
    } else {
      FitsAtFour(i);
    }
  }

  lemma ScaledLevel(det: nat, below: nat, m: int, above: nat)
    requires 8 * below <= m <= 8 * above
    ensures below * det / 4096 <= det * m / 32768 <= above * det / 4096
    ensures -(above * det / 4096) - 1 <= det * -m / 32768 <= -(below * det / 4096)
  {
    var x, y, z := below * det, det * m, above * det;
    assert 8 * x <= y <= 8 * z by {
      ProductMonotone(8 * below, m, det);
      ProductMonotone(m, 8 * above, det);
    }
    assert det * -m == -y;
  }

  lemma NegativeLevel(det: nat, m: int)
    requires 0 < m && 0 < det
    ensures det * -m / 32768 < 0
  {
    assert det * m > 0 && det * -m == -(det * m);
  }

  /** What the decoder adds to its prediction for the code of xlow. */
  function LowDifference(v: Band, xlow: int, bits: Rate): int {
    LowCodeRange(v, xlow);
    v.det * LevelOf(LowCode(v, xlow), bits) / 32768
  }

  function CellOf(v: Band, xlow: int): (i: nat)
    ensures 1 <= i <= 30
  {
    Cell(Magnitude(Saturate(xlow - v.s)), v.det, 1)
  }

  /** The prediction error is neither clipped to 16 bits nor in the overload cell of the rate. */
  predicate InQuantiserRange(v: Band, xlow: int, bits: Rate) {
    -32768 <= xlow - v.s <= 32767 && Last(CellOf(v, xlow), bits) < 30
  }

  /** Width of the merged cell the error falls into. */
  function StepWidth(v: Band, xlow: int, bits: Rate): int {
    var i := CellOf(v, xlow);
    if Last(i, bits) < 30 then Threshold(Last(i, bits), v.det) - Threshold(First(i, bits), v.det) else 0
  }

  lemma ThresholdsAround(v: Band, xlow: int, bits: Rate)
    requires 0 <= v.det && InQuantiserRange(v, xlow, bits)
    ensures var i, wd := CellOf(v, xlow), Magnitude(xlow - v.s);
            Threshold(First(i, bits), v.det) <= wd < Threshold(Last(i, bits), v.det)
  {
    var i, wd := CellOf(v, xlow), Magnitude(xlow - v.s);
    CellIsUnique(wd, v.det, i);
    ThresholdMonotone(First(i, bits), i - 1, v.det);
    ThresholdMonotone(i, Last(i, bits), v.det);
  }

  lemma LevelOfPositive(det: nat, i: nat, bits: Rate)
    requires 1 <= i <= 30 && Last(i, bits) < 30
    ensures ILP[i] < 64
    ensures Threshold(First(i, bits), det) <= det * LevelOf(ILP[i], bits) / 32768 <= Threshold(Last(i, bits), det)
  {
    LevelsFit(i, bits);
    ScaledLevel(det, Q6[First(i, bits)], LevelOf(ILP[i], bits), Q6[Last(i, bits)]);
  }

  lemma LevelOfNegative(det: nat, i: nat, bits: Rate)
    requires 0 < det && 1 <= i <= 30 && Last(i, bits) < 30
    ensures ILN[i] < 64
    ensures var r := det * LevelOf(ILN[i], bits) / 32768;
            -Threshold(Last(i, bits), det) - 1 <= r <= -Threshold(First(i, bits), det) && (bits != 6 ==> r < 0)
  {
    LevelsFit(i, bits);
    var m := -LevelOf(ILN[i], bits);
    ScaledLevel(det, Q6[First(i, bits)], m, Q6[Last(i, bits)]);
    if bits != 6 {
      NegativeLevel(det, m);
    }
  }

  /** Quantise and dequantise: outside overload the result is within one merged cell of the error, on the same side of 0. */
  lemma QuantiserError(v: Band, xlow: int, bits: Rate)
    requires 0 < v.det && InQuantiserRange(v, xlow, bits)
    ensures var e, r := xlow - v.s, LowDifference(v, xlow, bits);
            && Abs(e - r) <= StepWidth(v, xlow, bits)
            && (e >= 0 ==> r >= 0) && (e < 0 ==> r <= 0)
            && (e < 0 && bits != 6 ==> r < 0)
  {
    var i := CellOf(v, xlow);
    ThresholdsAround(v, xlow, bits);
    ThresholdMonotone(First(i, bits), First(i, bits), v.det);
    if xlow - v.s < 0 {
      LevelOfNegative(v.det, i, bits);
      assert LowDifference(v, xlow, bits) == v.det * LevelOf(ILN[i], bits) / 32768;
    } else {
      LevelOfPositive(v.det, i, bits);
      assert LowDifference(v, xlow, bits) == v.det * LevelOf(ILP[i], bits) / 32768;
    }
  }

  predicate InHighRange(v: Band, xhigh: int) {
    -32768 <= xhigh - v.s <= 32767 && Magnitude(xhigh - v.s) < 564 * v.det / 4096
  }

  /** The two inner levels of the high band lie in the inner cells. */
  lemma HighError(v: Band, xhigh: int)
    requires 0 < v.det && InHighRange(v, xhigh)
    ensures HighCode(v, xhigh) < 4
    ensures var e, r := xhigh - v.s, v.det * QM2[HighCode(v, xhigh)] / 32768;
            Abs(e - r) <= 564 * v.det / 4096
  {
    ScaledLevel(v.det, 0, 1616, 564);
  }

  /** The high band is heard on the side of the error, at the outer level exactly when the error is in the outer cell. */
  lemma HighCodeSides(v: Band, xhigh: int)
    ensures HighCode(v, xhigh) < 4
    ensures var e, level := Saturate(xhigh - v.s), QM2[HighCode(v, xhigh)];
            && (level < 0 <==> e < 0)
            && (Abs(level) == 7408 <==> Magnitude(e) >= 564 * v.det / 4096) && (Abs(level) == 1616 <==> Abs(level) != 7408)
  {
  }

  lemma PositiveSide(i: nat, bits: Rate)
    requires 1 <= i <= 30
    ensures ILP[i] < 64 && LevelOf(ILP[i], bits) >= 0
  {
    PositiveCode(i);
    PositiveLevel(62 - i);
  }

  lemma NegativeSide(i: nat, bits: Rate)
    requires 1 <= i <= 30
    ensures ILN[i] < 64 && LevelOf(ILN[i], bits) <= 0
  {
    NegativeCode(i);
    NegativeLevelOf(if i <= 2 then 64 - i else 34 - i);
  }

  /** In any cell, that of overload included, the low band is heard on the side of the error. */
  lemma LowCodeSides(v: Band, xlow: int, bits: Rate)
    ensures LowCode(v, xlow) < 64
    ensures var e, level := Saturate(xlow - v.s), LevelOf(LowCode(v, xlow), bits);
            (e >= 0 ==> level >= 0) && (e < 0 ==> level <= 0)
  {
    var i := Cell(Magnitude(Saturate(xlow - v.s)), v.det, 1);
    if Saturate(xlow - v.s) < 0 {
      NegativeSide(i, bits);
    } else {
      PositiveSide(i, bits);
    }
  }

  /** In overload it is heard at the outermost level. */
  lemma OverloadLevels()
    ensures ILP[30] < 64 && ILN[30] < 64
    ensures LevelOf(ILP[30], 8) == 24808 && LevelOf(ILN[30], 8) == -24808
    ensures LevelOf(ILP[30], 7) == 23352 && LevelOf(ILN[30], 7) == -23352
    ensures LevelOf(ILP[30], 6) == 20456 && LevelOf(ILN[30], 6) == -20456
  {
  }

  /** The decoded low-band sample is within one merged quantiser cell of the coded one. */
  predicate LowFaithful(v: Band, xlow: int, bits: Rate, heard: int) {
    InQuantiserRange(v, xlow, bits) && -16384 <= xlow <= 16383 ==> Abs(heard - xlow) <= StepWidth(v, xlow, bits)
  }

  /** The decoded high-band sample is within the inner cell of the coded one. */
  predicate HighFaithful(v: Band, xhigh: int, heard: int) {
    InHighRange(v, xhigh) && -16384 <= xhigh <= 16383 ==> Abs(heard - xhigh) <= 564 * v.det / 4096
  }

  predicate Faithful(ecfg: Config, dcfg: Config, e: Coder, x: (int, int), heard: (int, int)) {
    LowFaithful(e.low, x.0, ecfg.bits, heard.0) &&
    (!ecfg.eightK && !dcfg.eightK ==> HighFaithful(e.high, x.1, heard.1))
  }

  lemma LowStepFidelity(v: Band, xlow: int, bits: Rate)
    requires 0 < v.det
    ensures LowFaithful(v, xlow, bits, Limit(v.s + LowDifference(v, xlow, bits)))
  {
    if InQuantiserRange(v, xlow, bits) {
      QuantiserError(v, xlow, bits);
    }
  }

  lemma HighStepFidelity(v: Band, xhigh: int)
    requires 0 < v.det
    ensures HighCode(v, xhigh) < 4
    ensures HighFaithful(v, xhigh, Limit(v.det * QM2[HighCode(v, xhigh)] / 32768 + v.s))
  {
    HighCodeRange(v, xhigh);
    if InHighRange(v, xhigh) {
      HighError(v, xhigh);
    }
  }

  lemma LevelAtRate(ilow: nat, ihigh: nat, eightK: bool, bits: Rate)
    requires ilow < 64 && ihigh < 4
    ensures LowLevel(RateShift(FullCode(ilow, ihigh, eightK), bits), bits) == LevelOf(ilow, bits)
  {
    EmbeddedIndices(ilow, ihigh, eightK, bits);
    ShrByHalves(ilow);
  }

  lemma DecodedLow(ecfg: Config, dcfg: Config, e: Coder, d: Coder, x: (int, int))
    requires dcfg.bits == ecfg.bits && SameState(ecfg, dcfg, e, d)
    ensures DecodedPair(dcfg, d, EncodeStep(ecfg, e, x).1).0 == Limit(e.low.s + LowDifference(e.low, x.0, ecfg.bits))
  {
    LowCodeRange(e.low, x.0);
    HighCodeRange(e.high, x.1);
    LevelAtRate(LowCode(e.low, x.0), HighCode(e.high, x.1), ecfg.eightK, ecfg.bits);
  }

  lemma DecodedHigh(ecfg: Config, dcfg: Config, e: Coder, d: Coder, x: (int, int))
    requires dcfg.bits == ecfg.bits && !ecfg.eightK && !dcfg.eightK && SameState(ecfg, dcfg, e, d)
    ensures HighCode(e.high, x.1) < 4
    ensures DecodedPair(dcfg, d, EncodeStep(ecfg, e, x).1).1
            == Limit(e.high.det * QM2[HighCode(e.high, x.1)] / 32768 + e.high.s)
  {
    LowCodeRange(e.low, x.0);
    HighCodeRange(e.high, x.1);
    EmbeddedIndices(LowCode(e.low, x.0), HighCode(e.high, x.1), ecfg.eightK, ecfg.bits);
  }

  lemma PairLowFidelity(ecfg: Config, dcfg: Config, e: Coder, d: Coder, x: (int, int))
    requires dcfg.bits == ecfg.bits && SameState(ecfg, dcfg, e, d)
    ensures LowFaithful(e.low, x.0, ecfg.bits, DecodedPair(dcfg, d, EncodeStep(ecfg, e, x).1).0)
  {
    ScaleRange(e.low.nb, 8);
    DecodedLow(ecfg, dcfg, e, d, x);
    LowStepFidelity(e.low, x.0, ecfg.bits);
  }

  lemma PairHighFidelity(ecfg: Config, dcfg: Config, e: Coder, d: Coder, x: (int, int))
    requires dcfg.bits == ecfg.bits && !ecfg.eightK && !dcfg.eightK && SameState(ecfg, dcfg, e, d)
    ensures HighFaithful(e.high, x.1, DecodedPair(dcfg, d, EncodeStep(ecfg, e, x).1).1)
  {
    ScaleRange(e.high.nb, 10);
    DecodedHigh(ecfg, dcfg, e, d, x);
    HighStepFidelity(e.high, x.1);
  }

  lemma StepFidelity(ecfg: Config, dcfg: Config, e: Coder, d: Coder, x: (int, int))
    requires dcfg.bits == ecfg.bits && SameState(ecfg, dcfg, e, d)
    ensures Faithful(ecfg, dcfg, e, x, DecodeStep(dcfg, d, EncodeStep(ecfg, e, x).1).1)
  {
    PairLowFidelity(ecfg, dcfg, e, d, x);
    if !ecfg.eightK && !dcfg.eightK {
      PairHighFidelity(ecfg, dcfg, e, d, x);
    }
  }

  /** Outside overload every decoded sample of every stream, at every rate, is within one merged quantiser cell
      of the encoder's: the state the cell is taken from is the one after all the samples before it. */
  lemma Fidelity(ecfg: Config, dcfg: Config, c: Coder, xs: seq<(int, int)>, n: nat)
    requires dcfg.bits == ecfg.bits && n < |xs|
    ensures Faithful(ecfg, dcfg, EncodeRun(ecfg, c, xs[..n]).0, xs[n],
                     DecodeRun(dcfg, c, EncodeRun(ecfg, c, xs).1).1[n])
  {
    var send, receive := Encoder(ecfg), Decoder(dcfg);
    var related := (e: Coder, d: Coder) => SameState(ecfg, dcfg, e, d);
    var good := (e: Coder, x: (int, int), heard: (int, int)) => Faithful(ecfg, dcfg, e, x, heard);
    forall e, d, x | related(e, d)
      ensures related(send(e, x).0, receive(d, send(e, x).1).0)
      ensures good(e, x, receive(d, send(e, x).1).1)
    {
      SameStep(ecfg, dcfg, e, d, x);
      StepFidelity(ecfg, dcfg, e, d, x);
    }
    OutputsInStep(send, receive, related, good, c, c, xs, n);
    var sender := EncodeRun(ecfg, c, xs[..n]).0;
    var heard := DecodeRun(dcfg, c, EncodeRun(ecfg, c, xs).1).1[n];
    assert good(sender, xs[n], heard);
  }
}
