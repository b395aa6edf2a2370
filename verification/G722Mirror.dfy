/** What the quadrature mirror filters compute, and that the receiving pair undoes the transmitting one. */
module G722Mirror {
  import opened CInt
  import opened G722Tables
  import opened G722Coder
  import opened G722Filter
  import opened Streams
  import opened Sequences

  // One frame: a convolution with a symmetric low-pass prototype, and with its mirror image.

  /** The 24 taps, of which the table holds every other one. */
  function Prototype(k: nat): int
    requires k < 24
  {
    QMF[if k % 2 == 0 then k / 2 else (23 - k) / 2]
  }

  lemma PrototypeIsSymmetric(k: nat)
    requires k < 24
    ensures Prototype(k) == Prototype(23 - k)
  {
  }

  function LowPass(x: History, n: nat): int
    requires n <= 24
  {
    if n == 0 then 0 else LowPass(x, n - 1) + Prototype(n - 1) * x[n - 1]
  }

  /** The mirror image: every other tap negated. */
  function HighPass(x: History, n: nat): int
    requires n <= 24
  {
    if n == 0 then 0 else HighPass(x, n - 1) + (if n % 2 == 0 then 1 else -1) * Prototype(n - 1) * x[n - 1]
  }

  lemma TapPlaces(n: nat)
    requires 0 < n <= 12
    ensures Prototype(2 * n - 2) == QMF[n - 1] && Prototype(2 * n - 1) == QMF[12 - n]
  {
  }

  lemma Negated(a: int, b: int)
    ensures -1 * a * b == -(b * a) && 1 * a * b == b * a && a * b == b * a
  {
  }

  lemma OneLowTap(x: History, n: nat)
    requires 0 < n <= 24
    ensures LowPass(x, n) == LowPass(x, n - 1) + x[n - 1] * Prototype(n - 1)
  {
    Negated(Prototype(n - 1), x[n - 1]);
  }

  lemma EvenHighTap(x: History, n: nat)
    requires 0 < n <= 24 && n % 2 == 0
    ensures HighPass(x, n) == HighPass(x, n - 1) + x[n - 1] * Prototype(n - 1)
  {
    Negated(Prototype(n - 1), x[n - 1]);
  }

  lemma OddHighTap(x: History, n: nat)
    requires 0 < n <= 24 && n % 2 == 1
    ensures HighPass(x, n) == HighPass(x, n - 1) - x[n - 1] * Prototype(n - 1)
  {
    Negated(Prototype(n - 1), x[n - 1]);
  }

  lemma TwoLowTaps(x: History, n: nat)
    requires 0 < n <= 12
    ensures LowPass(x, 2 * n) == LowPass(x, 2 * n - 2) + x[2 * n - 2] * QMF[n - 1] + x[2 * n - 1] * QMF[12 - n]
  {
    TapPlaces(n);
    OneLowTap(x, 2 * n - 1);
    OneLowTap(x, 2 * n);
  }

  lemma TwoHighTaps(x: History, n: nat)
    requires 0 < n <= 12
    ensures HighPass(x, 2 * n) == HighPass(x, 2 * n - 2) - x[2 * n - 2] * QMF[n - 1] + x[2 * n - 1] * QMF[12 - n]
  {
    TapPlaces(n);
    OddHighTap(x, 2 * n - 1);
    EvenHighTap(x, 2 * n);
  }

  lemma OneMore(x: History, n: nat)
    requires 0 < n <= 12
    ensures SumOdd(x, n) == SumOdd(x, n - 1) + x[2 * n - 2] * QMF[n - 1]
    ensures SumEven(x, n) == SumEven(x, n - 1) + x[2 * n - 1] * QMF[12 - n]
  {
  }

  lemma {:induction false} SumIsLowPass(x: History, n: nat)
    requires n <= 12
    ensures LowPass(x, 2 * n) == SumEven(x, n) + SumOdd(x, n)
  {
    if n > 0 {
      SumIsLowPass(x, n - 1);
      TwoLowTaps(x, n);
      OneMore(x, n);
    }
  }

  lemma {:induction false} DifferenceIsHighPass(x: History, n: nat)
    requires n <= 12
    ensures HighPass(x, 2 * n) == SumEven(x, n) - SumOdd(x, n)
  {
    if n > 0 {
      DifferenceIsHighPass(x, n - 1);
      TwoHighTaps(x, n);
      OneMore(x, n);
    }
  }

  /** The low-band sample is the low pass of the last 24 samples, the high-band sample their high pass. */
  lemma SplitIsConvolution(cfg: Config, x: History, f: Frame)
    requires !cfg.testMode && !cfg.eightK
    ensures var y := Shift(x, f.0, f.1);
            SplitStep(cfg, x, f) == (y, (LowPass(y, 24) / 16384, HighPass(y, 24) / 16384))
  {
    SumIsLowPass(Shift(x, f.0, f.1), 12);
    DifferenceIsHighPass(Shift(x, f.0, f.1), 12);
  }

  // Steady signals.

  /** a at every even place, b at every odd one. */
  predicate Steady(x: History, a: int, b: int) {
    forall i :: 0 <= i < 24 ==> x[i] == if i % 2 == 0 then a else b
  }

  function TapSum(n: nat): int
    requires n <= 12
  {
    if n == 0 then 0 else TapSum(n - 1) + QMF[n - 1]
  }

  function TapSumFromEnd(n: nat): int
    requires n <= 12
  {
    if n == 0 then 0 else TapSumFromEnd(n - 1) + QMF[12 - n]
  }

  lemma AllTaps()
    ensures TapSum(12) == 4096 && TapSumFromEnd(12) == 4096
  {
    assert TapSum(6) == 777 && TapSumFromEnd(6) == 3319;
  }

  lemma Distributed(a: int, s: int, t: int)
    ensures a * (s + t) == a * s + a * t
  {
  }

  lemma {:induction false} SteadyOdd(x: History, a: int, b: int, n: nat)
    requires Steady(x, a, b) && n <= 12
    ensures SumOdd(x, n) == a * TapSum(n)
  {
    if n > 0 {
      SteadyOdd(x, a, b, n - 1);
      Distributed(a, TapSum(n - 1), QMF[n - 1]);
      assert x[2 * (n - 1)] == a;
    }
  }

  lemma {:induction false} SteadyEven(x: History, a: int, b: int, n: nat)
    requires Steady(x, a, b) && n <= 12
    ensures SumEven(x, n) == b * TapSumFromEnd(n)
  {
    if n > 0 {
      SteadyEven(x, a, b, n - 1);
      Distributed(b, TapSumFromEnd(n - 1), QMF[12 - n]);
      assert x[2 * (n - 1) + 1] == b;
    }
  }

  lemma SteadyLine(x: History, a: int, b: int)
    requires Steady(x, a, b)
    ensures SumOdd(x, 12) == 4096 * a && SumEven(x, 12) == 4096 * b
  {
    SteadyOdd(x, a, b, 12);
    SteadyEven(x, a, b, 12);
    AllTaps();
  }

  /** A constant signal is all in the low band, at half its value. */
  lemma ConstantIsLow(cfg: Config, x: History, c: Int16)
    requires !cfg.testMode && !cfg.eightK && Steady(x, c, c)
    ensures SplitStep(cfg, x, (c, c)) == (x, (c / 2, 0))
  {
    assert Shift(x, c, c) == x;
    SteadyLine(x, c, c);
  }

  /** A signal that alternates is all in the high band. */
  lemma AlternatingIsHigh(cfg: Config, x: History, c: Int16)
    requires !cfg.testMode && !cfg.eightK && c != -32768 && Steady(x, c, -c)
    ensures SplitStep(cfg, x, (c, -c)) == (x, (0, -c / 2))
  {
    assert Shift(x, c, -c) == x;
    SteadyLine(x, c, -c);
  }

  /** Steady bands give back a signal twice as large: the high band alternates in it. */
  lemma SteadyBandsJoin(cfg: Config, x: History, low: Limited, high: Limited)
    requires !cfg.testMode && !cfg.eightK && Steady(x, low + high, low - high)
    ensures JoinStep(cfg, x, (low, high)) == (x, [ToInt16(2 * (low - high)), ToInt16(2 * (low + high))])
  {
    assert Shift(x, low + high, low - high) == x;
    SteadyLine(x, low + high, low - high);
  }

  /** Without the filters a sample is halved and doubled. */
  lemma UnfilteredSamples(cfg: Config, x: History, z: History, s: Int16)
    requires cfg.testMode || cfg.eightK
    ensures var pair := SplitStep(cfg, x, (s, s)).1;
            && -16384 <= pair.0 <= 16383 && -16384 <= pair.1 <= 16383
            && JoinStep(cfg, z, pair).1 == if cfg.testMode then [s - s % 2, s - s % 2] else [s - s % 2]
  {
  }

  // Streams: both lines hold the last twelve frames.

  /** The first n taps laid on twelve values from k on. */
  function Forward(a: seq<int>, k: nat, n: nat): int
    requires n <= 12 && k + 12 <= |a|
  {
    if n == 0 then 0 else Forward(a, k, n - 1) + a[k + (n - 1)] * QMF[n - 1]
  }

  /** The taps in the other order. */
  function Backward(a: seq<int>, k: nat, n: nat): int
    requires n <= 12 && k + 12 <= |a|
  {
    if n == 0 then 0 else Backward(a, k, n - 1) + a[k + (n - 1)] * QMF[12 - n]
  }

  /** The line holds a and b in turn, from k on. */
  predicate Interleaved(x: History, a: seq<int>, b: seq<int>, k: nat)
    requires k + 12 <= |a| && |a| == |b|
  {
    forall i :: 0 <= i < 12 ==> x[2 * i] == a[k + i] && x[2 * i + 1] == b[k + i]
  }

  lemma {:induction false} SumsOfLine(x: History, a: seq<int>, b: seq<int>, k: nat, n: nat)
    requires k + 12 <= |a| && |a| == |b| && Interleaved(x, a, b, k) && n <= 12
    ensures SumOdd(x, n) == Forward(a, k, n) && SumEven(x, n) == Backward(b, k, n)
  {
    if n > 0 {
      SumsOfLine(x, a, b, k, n - 1);
    }
  }

  function Firsts(frames: seq<(int, int)>): (r: seq<int>)
    ensures |r| == |frames|
  {
    seq(|frames|, i requires 0 <= i < |frames| => frames[i].0)
  }

  function Seconds(frames: seq<(int, int)>): (r: seq<int>)
    ensures |r| == |frames|
  {
    seq(|frames|, i requires 0 <= i < |frames| => frames[i].1)
  }

  lemma {:induction false} SplitLine(cfg: Config, x: History, frames: seq<Frame>, i: nat)
    requires !cfg.testMode && !cfg.eightK && i < 12 <= |frames| + i
    ensures var y := Split(cfg, x, frames).0;
            y[2 * i] == frames[|frames| + i - 12].0 && y[2 * i + 1] == frames[|frames| + i - 12].1
    decreases |frames|
  {
    if i < 11 {
      SplitLine(cfg, x, frames[..|frames| - 1], i + 1);
    }
  }

  function SumOf(p: (Limited, Limited)): int {
    var low: int, high: int := p.0, p.1;
    low + high
  }

  function DifferenceOf(p: (Limited, Limited)): int {
    var low: int, high: int := p.0, p.1;
    low - high
  }

  lemma {:induction false} JoinLine(cfg: Config, z: History, pairs: seq<(Limited, Limited)>, i: nat)
    requires !cfg.testMode && !cfg.eightK && i < 12 <= |pairs| + i
    ensures var y, p := Join(cfg, z, pairs).0, pairs[|pairs| + i - 12];
            y[2 * i] == SumOf(p) && y[2 * i + 1] == DifferenceOf(p)
    decreases |pairs|
  {
    if i < 11 {
      JoinLine(cfg, z, pairs[..|pairs| - 1], i + 1);
    }
  }

  // The taps against themselves: 2^24, but for little.

  lemma {:induction false} ForwardIs(a: seq<int>, k: nat)
    requires k + 12 <= |a|
    ensures Forward(a, k, 12)
            == 3 * a[k] - 11 * a[k + 1] + 12 * a[k + 2] + 32 * a[k + 3] - 210 * a[k + 4] + 951 * a[k + 5]
                + 3876 * a[k + 6] - 805 * a[k + 7] + 362 * a[k + 8] - 156 * a[k + 9] + 53 * a[k + 10] - 11 * a[k + 11]
  {
    assert Forward(a, k, 1) == 3 * a[k];
    assert Forward(a, k, 2) == 3 * a[k] - 11 * a[k + 1];
    assert Forward(a, k, 4) == Forward(a, k, 2) + 12 * a[k + 2] + 32 * a[k + 3];
    assert Forward(a, k, 6) == Forward(a, k, 4) - 210 * a[k + 4] + 951 * a[k + 5];
    assert Forward(a, k, 8) == Forward(a, k, 6) + 3876 * a[k + 6] - 805 * a[k + 7];
    assert Forward(a, k, 10) == Forward(a, k, 8) + 362 * a[k + 8] - 156 * a[k + 9];
  }

  lemma {:induction false} BackwardIs(a: seq<int>, k: nat)
    requires k + 12 <= |a|
    ensures Backward(a, k, 12)
            == -11 * a[k] + 53 * a[k + 1] - 156 * a[k + 2] + 362 * a[k + 3] - 805 * a[k + 4] + 3876 * a[k + 5]
                + 951 * a[k + 6] - 210 * a[k + 7] + 32 * a[k + 8] + 12 * a[k + 9] - 11 * a[k + 10] + 3 * a[k + 11]
  {
    assert Backward(a, k, 1) == -11 * a[k];
    assert Backward(a, k, 2) == -11 * a[k] + 53 * a[k + 1];
    assert Backward(a, k, 4) == Backward(a, k, 2) - 156 * a[k + 2] + 362 * a[k + 3];
    assert Backward(a, k, 6) == Backward(a, k, 4) - 805 * a[k + 4] + 3876 * a[k + 5];
    assert Backward(a, k, 8) == Backward(a, k, 6) + 951 * a[k + 6] - 210 * a[k + 7];
    assert Backward(a, k, 10) == Backward(a, k, 8) + 32 * a[k + 8] + 12 * a[k + 9];
  }

  /** The autocorrelation of the taps, laid on 23 values. */
  function Correlated(b: seq<int>): int
    requires |b| == 23
  {
    -33 * b[0] + 280 * b[1] - 1183 * b[2] + 3086 * b[3] - 4263 * b[4] - 1756 * b[5]
     + 2668 * b[6] - 432 * b[7] - 141 * b[8] - 2325 * b[9] + 2952 * b[10] + 16779510 * b[11]
     + 2952 * b[12] - 2325 * b[13] - 141 * b[14] - 432 * b[15] + 2668 * b[16] - 1756 * b[17]
     - 4263 * b[18] + 3086 * b[19] - 1183 * b[20] + 280 * b[21] - 33 * b[22]
  }

  /** Element s of e is what the taps make of b from s on. */
  predicate BackwardAt(b: seq<int>, e: seq<int>, s: nat)
    requires |b| == 23 && |e| == 12 && s < 12
  {
    e[s] == -11 * b[s] + 53 * b[s + 1] - 156 * b[s + 2] + 362 * b[s + 3] - 805 * b[s + 4] + 3876 * b[s + 5]
                 + 951 * b[s + 6] - 210 * b[s + 7] + 32 * b[s + 8] + 12 * b[s + 9] - 11 * b[s + 10] + 3 * b[s + 11]
  }

  predicate BackwardEverywhere(b: seq<int>, e: seq<int>)
    requires |b| == 23 && |e| == 12
  {
    forall s :: 0 <= s < 12 ==> BackwardAt(b, e, s)
  }

  predicate BackwardTwelve(b: seq<int>, e: seq<int>)
    requires |b| == 23 && |e| == 12
  {
    && BackwardAt(b, e, 0) && BackwardAt(b, e, 1) && BackwardAt(b, e, 2) && BackwardAt(b, e, 3)
    && BackwardAt(b, e, 4) && BackwardAt(b, e, 5) && BackwardAt(b, e, 6) && BackwardAt(b, e, 7)
    && BackwardAt(b, e, 8) && BackwardAt(b, e, 9) && BackwardAt(b, e, 10) && BackwardAt(b, e, 11)
  }

  lemma {:induction false} BackwardPlaces(b: seq<int>, e: seq<int>)
    requires |b| == 23 && |e| == 12 && forall s :: 0 <= s < 12 ==> e[s] == Backward(b, s, 12)
    ensures BackwardEverywhere(b, e)
  {
    forall s | 0 <= s < 12
      ensures BackwardAt(b, e, s)
    {
      BackwardIs(b, s);
    }
  }

  /** Element s of e is what the taps make of b from s on. */
  predicate ForwardAt(b: seq<int>, e: seq<int>, s: nat)
    requires |b| == 23 && |e| == 12 && s < 12
  {
    e[s] == 3 * b[s] - 11 * b[s + 1] + 12 * b[s + 2] + 32 * b[s + 3] - 210 * b[s + 4] + 951 * b[s + 5]
                 + 3876 * b[s + 6] - 805 * b[s + 7] + 362 * b[s + 8] - 156 * b[s + 9] + 53 * b[s + 10] - 11 * b[s + 11]
  }

  predicate ForwardEverywhere(b: seq<int>, e: seq<int>)
    requires |b| == 23 && |e| == 12
  {
    forall s :: 0 <= s < 12 ==> ForwardAt(b, e, s)
  }

  predicate ForwardTwelve(b: seq<int>, e: seq<int>)
    requires |b| == 23 && |e| == 12
  {
    && ForwardAt(b, e, 0) && ForwardAt(b, e, 1) && ForwardAt(b, e, 2) && ForwardAt(b, e, 3)
    && ForwardAt(b, e, 4) && ForwardAt(b, e, 5) && ForwardAt(b, e, 6) && ForwardAt(b, e, 7)
    && ForwardAt(b, e, 8) && ForwardAt(b, e, 9) && ForwardAt(b, e, 10) && ForwardAt(b, e, 11)
  }

  lemma {:induction false} ForwardPlaces(b: seq<int>, e: seq<int>)
    requires |b| == 23 && |e| == 12 && forall s :: 0 <= s < 12 ==> e[s] == Forward(b, s, 12)
    ensures ForwardEverywhere(b, e)
  {
    forall s | 0 <= s < 12
      ensures ForwardAt(b, e, s)
    {
      ForwardIs(b, s);
    }
  }

  lemma {:induction false} ForwardOfBackwardTwelve(b: seq<int>, e: seq<int>)
    requires |b| == 23 && |e| == 12 && BackwardTwelve(b, e)
    ensures 3 * e[0] - 11 * e[1] + 12 * e[2] + 32 * e[3] - 210 * e[4] + 951 * e[5]
             + 3876 * e[6] - 805 * e[7] + 362 * e[8] - 156 * e[9] + 53 * e[10] - 11 * e[11]
         == Correlated(b)
  {
  }

  lemma {:induction false} ForwardOfBackwardTaps(b: seq<int>, e: seq<int>)
    requires |b| == 23 && |e| == 12 && BackwardEverywhere(b, e)
    ensures 3 * e[0] - 11 * e[1] + 12 * e[2] + 32 * e[3] - 210 * e[4] + 951 * e[5]
             + 3876 * e[6] - 805 * e[7] + 362 * e[8] - 156 * e[9] + 53 * e[10] - 11 * e[11]
         == Correlated(b)
  {
    ForwardOfBackwardTwelve(b, e);
  }

  lemma {:induction false} ForwardOfBackward(b: seq<int>, e: seq<int>)
    requires |b| == 23 && |e| == 12 && forall s :: 0 <= s < 12 ==> e[s] == Backward(b, s, 12)
    ensures Forward(e, 0, 12) == Correlated(b)
  {
    assert BackwardEverywhere(b, e) by {
      BackwardPlaces(b, e);
    }
    ForwardOfBackwardTaps(b, e);
    ForwardIs(e, 0);
  }

  lemma {:induction false} BackwardOfForwardTwelve(b: seq<int>, e: seq<int>)
    requires |b| == 23 && |e| == 12 && ForwardTwelve(b, e)
    ensures -11 * e[0] + 53 * e[1] - 156 * e[2] + 362 * e[3] - 805 * e[4] + 3876 * e[5]
             + 951 * e[6] - 210 * e[7] + 32 * e[8] + 12 * e[9] - 11 * e[10] + 3 * e[11]
         == Correlated(b)
  {
  }

  lemma {:induction false} BackwardOfForwardTaps(b: seq<int>, e: seq<int>)
    requires |b| == 23 && |e| == 12 && ForwardEverywhere(b, e)
    ensures -11 * e[0] + 53 * e[1] - 156 * e[2] + 362 * e[3] - 805 * e[4] + 3876 * e[5]
             + 951 * e[6] - 210 * e[7] + 32 * e[8] + 12 * e[9] - 11 * e[10] + 3 * e[11]
         == Correlated(b)
  {
    BackwardOfForwardTwelve(b, e);
  }

  lemma {:induction false} BackwardOfForward(b: seq<int>, e: seq<int>)
    requires |b| == 23 && |e| == 12 && forall s :: 0 <= s < 12 ==> e[s] == Forward(b, s, 12)
    ensures Backward(e, 0, 12) == Correlated(b)
  {
    assert ForwardEverywhere(b, e) by {
      ForwardPlaces(b, e);
    }
    BackwardOfForwardTaps(b, e);
    BackwardIs(e, 0);
  }

  lemma {:induction false} CorrelatedIsMiddle(b: seq<int>, peak: int)
    requires |b| == 23 && forall i :: 0 <= i < |b| ==> -peak <= b[i] <= peak
    ensures Abs(Correlated(b) - 0x100_0000 * b[11]) <= 40532 * peak
  {
    assert -peak <= b[0] <= peak && -peak <= b[1] <= peak && -peak <= b[2] <= peak && -peak <= b[3] <= peak && -peak <= b[4] <= peak && -peak <= b[5] <= peak && -peak <= b[6] <= peak && -peak <= b[7] <= peak;
    assert -peak <= b[8] <= peak && -peak <= b[9] <= peak && -peak <= b[10] <= peak && -peak <= b[11] <= peak && -peak <= b[12] <= peak && -peak <= b[13] <= peak && -peak <= b[14] <= peak && -peak <= b[15] <= peak;
    assert -peak <= b[16] <= peak && -peak <= b[17] <= peak && -peak <= b[18] <= peak && -peak <= b[19] <= peak && -peak <= b[20] <= peak && -peak <= b[21] <= peak && -peak <= b[22] <= peak;
  }

  /** What rounding to whole band samples makes of it. */
  lemma {:induction false} ForwardRounded(p: seq<int>, e: seq<int>)
    requires |p| == 12 && |e| == 12 && forall j :: 0 <= j < 12 ==> 0 <= e[j] - 8192 * p[j] < 16384
    ensures Abs(8192 * Forward(p, 0, 12) - Forward(e, 0, 12)) <= 5289 * 16384
  {
    ForwardIs(p, 0);
    ForwardIs(e, 0);
  }

  lemma {:induction false} BackwardRounded(p: seq<int>, e: seq<int>)
    requires |p| == 12 && |e| == 12 && forall j :: 0 <= j < 12 ==> -8192 < e[j] - 8192 * p[j] < 8192
    ensures Abs(8192 * Backward(p, 0, 12) - Backward(e, 0, 12)) <= 6482 * 8192
  {
    BackwardIs(p, 0);
    BackwardIs(e, 0);
  }

  // From the samples to the samples.

  lemma {:induction false} ForwardSlice(a: seq<int>, from: nat, to: nat, k: nat, n: nat)
    requires from <= to <= |a| && k + 12 <= to - from && n <= 12
    ensures Forward(a[from..to], k, n) == Forward(a, from + k, n)
  {
    if n > 0 {
      ForwardSlice(a, from, to, k, n - 1);
    }
  }

  lemma {:induction false} BackwardSlice(a: seq<int>, from: nat, to: nat, k: nat, n: nat)
    requires from <= to <= |a| && k + 12 <= to - from && n <= 12
    ensures Backward(a[from..to], k, n) == Backward(a, from + k, n)
  {
    if n > 0 {
      BackwardSlice(a, from, to, k, n - 1);
    }
  }

  lemma LineAt(cfg: Config, x: History, frames: seq<Frame>, s: nat)
    requires !cfg.testMode && !cfg.eightK && 11 <= s < |frames|
    ensures Interleaved(Split(cfg, x, frames[..s + 1]).0, Firsts(frames), Seconds(frames), s - 11)
  {
    var y := Split(cfg, x, frames[..s + 1]).0;
    forall i | 0 <= i < 12
      ensures y[2 * i] == Firsts(frames)[s - 11 + i] && y[2 * i + 1] == Seconds(frames)[s - 11 + i]
    {
      SplitLine(cfg, x, frames[..s + 1], i);
    }
  }

  /** The band samples of a stream in terms of its last twelve frames. */
  lemma PairAt(cfg: Config, x: History, frames: seq<Frame>, s: nat)
    requires !cfg.testMode && !cfg.eightK && 11 <= s < |frames|
    ensures var even, odd := Backward(Seconds(frames), s - 11, 12), Forward(Firsts(frames), s - 11, 12);
            Split(cfg, x, frames).1[s] == ((even + odd) / 16384, (even - odd) / 16384)
  {
    RunPrefix(Splitter(cfg), x, frames, s);
    assert frames[..s + 1] == frames[..s] + [frames[s]];
    RunSnoc(Splitter(cfg), x, frames[..s], frames[s]);
    LineAt(cfg, x, frames, s);
    SumsOfLine(Split(cfg, x, frames[..s + 1]).0, Firsts(frames), Seconds(frames), s - 11, 12);
  }

  function Sums(pairs: seq<(Limited, Limited)>): (r: seq<int>)
    ensures |r| == |pairs|
  {
    seq(|pairs|, i requires 0 <= i < |pairs| => SumOf(pairs[i]))
  }

  function Differences(pairs: seq<(Limited, Limited)>): (r: seq<int>)
    ensures |r| == |pairs|
  {
    seq(|pairs|, i requires 0 <= i < |pairs| => DifferenceOf(pairs[i]))
  }

  lemma JoinedLineAt(cfg: Config, z: History, pairs: seq<(Limited, Limited)>, t: nat)
    requires !cfg.testMode && !cfg.eightK && 11 <= t < |pairs|
    ensures Interleaved(Join(cfg, z, pairs[..t + 1]).0, Sums(pairs), Differences(pairs), t - 11)
  {
    var y := Join(cfg, z, pairs[..t + 1]).0;
    forall i | 0 <= i < 12
      ensures y[2 * i] == Sums(pairs)[t - 11 + i] && y[2 * i + 1] == Differences(pairs)[t - 11 + i]
    {
      JoinLine(cfg, z, pairs[..t + 1], i);
    }
  }

  /** The samples put out in terms of the last twelve band pairs. */
  lemma SamplesAt(cfg: Config, z: History, pairs: seq<(Limited, Limited)>, t: nat)
    requires !cfg.testMode && !cfg.eightK && 11 <= t < |pairs|
    ensures Join(cfg, z, pairs).1[t] == [ToInt16(Backward(Differences(pairs), t - 11, 12) / 2048),
                                         ToInt16(Forward(Sums(pairs), t - 11, 12) / 2048)]
  {
    RunPrefix(Joiner(cfg), z, pairs, t);
    assert pairs[..t + 1] == pairs[..t] + [pairs[t]];
    RunSnoc(Joiner(cfg), z, pairs[..t], pairs[t]);
    JoinedLineAt(cfg, z, pairs, t);
    SumsOfLine(Join(cfg, z, pairs[..t + 1]).0, Sums(pairs), Differences(pairs), t - 11, 12);
  }

  /** The window of 23 frames that a frame put out depends on. */
  predicate Quiet(frames: seq<Frame>, t: nat, peak: int)
    requires 22 <= t < |frames|
  {
    forall s :: t - 22 <= s <= t ==> -peak <= frames[s].0 <= peak && -peak <= frames[s].1 <= peak
  }

  lemma PairSums(even: int, odd: int, p: (Limited, Limited))
    requires p == ((even + odd) / 16384, (even - odd) / 16384)
    ensures 0 <= even - 8192 * SumOf(p) < 16384 && -8192 < odd - 8192 * DifferenceOf(p) < 8192
  {
  }

  /** Twelve sums and differences of band samples from t - 11 on, and the filter outputs they were rounded from. */
  lemma BandsAt(cfg: Config, x: History, frames: seq<Frame>, pairs: seq<(Limited, Limited)>, t: nat, j: nat)
    requires !cfg.testMode && !cfg.eightK && 22 <= t < |frames| && Split(cfg, x, frames).1 == pairs && j < 12
    ensures var even := Backward(Seconds(frames)[t - 22..t + 1], j, 12);
            0 <= even - 8192 * Sums(pairs)[t - 11..t + 1][j] < 16384
    ensures var odd := Forward(Firsts(frames)[t - 22..t + 1], j, 12);
            -8192 < odd - 8192 * Differences(pairs)[t - 11..t + 1][j] < 8192
  {
    var s := t - 11 + j;
    PairAt(cfg, x, frames, s);
    PairSums(Backward(Seconds(frames), s - 11, 12), Forward(Firsts(frames), s - 11, 12), pairs[s]);
    BackwardSlice(Seconds(frames), t - 22, t + 1, j, 12);
    ForwardSlice(Firsts(frames), t - 22, t + 1, j, 12);
  }

  function Distance(a: int, b: int): nat {
    Abs(a - b)
  }

  /** A received sum is 2^11 times a sample of eleven frames ago, within a 413th of the loudest, and 7. */
  lemma Near(v: int, e: int, p: int, b: int, peak: int)
    requires 0 <= peak && Abs(e - 0x100_0000 * b) <= 40532 * peak && Abs(8192 * p - e) <= 5289 * 16384 && v == p / 2048
    ensures Distance(v, b) <= peak / 413 + 7
  {
  }

  lemma ForwardUndoes(b: seq<int>, p: seq<int>, peak: int)
    requires |b| == 23 && |p| == 12 && forall i :: 0 <= i < |b| ==> -peak <= b[i] <= peak
    requires forall j :: 0 <= j < 12 ==> 0 <= Backward(b, j, 12) - 8192 * p[j] < 16384
    ensures Distance(Forward(p, 0, 12) / 2048, b[11]) <= peak / 413 + 7
  {
    var e := seq(12, j requires 0 <= j < 12 => Backward(b, j, 12));
    ForwardRounded(p, e);
    ForwardOfBackward(b, e);
    CorrelatedIsMiddle(b, peak);
    assert -peak <= b[0] <= peak;
    Near(Forward(p, 0, 12) / 2048, Forward(e, 0, 12), Forward(p, 0, 12), b[11], peak);
  }

  lemma BackwardUndoes(a: seq<int>, p: seq<int>, peak: int)
    requires |a| == 23 && |p| == 12 && forall i :: 0 <= i < |a| ==> -peak <= a[i] <= peak
    requires forall j :: 0 <= j < 12 ==> -8192 < Forward(a, j, 12) - 8192 * p[j] < 8192
    ensures Distance(Backward(p, 0, 12) / 2048, a[11]) <= peak / 413 + 7
  {
    var e := seq(12, j requires 0 <= j < 12 => Forward(a, j, 12));
    BackwardRounded(p, e);
    BackwardOfForward(a, e);
    CorrelatedIsMiddle(a, peak);
    assert -peak <= a[0] <= peak;
    Near(Backward(p, 0, 12) / 2048, Backward(e, 0, 12), Backward(p, 0, 12), a[11], peak);
  }

  lemma SecondSample(cfg: Config, x: History, frames: seq<Frame>, pairs: seq<(Limited, Limited)>, t: nat, peak: int)
    requires !cfg.testMode && !cfg.eightK && 22 <= t < |frames| && Split(cfg, x, frames).1 == pairs
    requires Quiet(frames, t, peak)
    ensures Distance(Forward(Sums(pairs), t - 11, 12) / 2048, frames[t - 11].1) <= peak / 413 + 7
  {
    var b, p := Seconds(frames)[t - 22..t + 1], Sums(pairs)[t - 11..t + 1];
    forall j | 0 <= j < 12
      ensures 0 <= Backward(b, j, 12) - 8192 * p[j] < 16384
    {
      BandsAt(cfg, x, frames, pairs, t, j);
    }
    ForwardUndoes(b, p, peak);
    ForwardSlice(Sums(pairs), t - 11, t + 1, 0, 12);
  }

  lemma FirstSample(cfg: Config, x: History, frames: seq<Frame>, pairs: seq<(Limited, Limited)>, t: nat, peak: int)
    requires !cfg.testMode && !cfg.eightK && 22 <= t < |frames| && Split(cfg, x, frames).1 == pairs
    requires Quiet(frames, t, peak)
    ensures Distance(Backward(Differences(pairs), t - 11, 12) / 2048, frames[t - 11].0) <= peak / 413 + 7
  {
    var a, p := Firsts(frames)[t - 22..t + 1], Differences(pairs)[t - 11..t + 1];
    forall j | 0 <= j < 12
      ensures -8192 < Forward(a, j, 12) - 8192 * p[j] < 8192
    {
      BandsAt(cfg, x, frames, pairs, t, j);
    }
    BackwardUndoes(a, p, peak);
    BackwardSlice(Differences(pairs), t - 11, t + 1, 0, 12);
  }

  lemma CastIsLossless(v: int)
    requires -32768 <= v <= 32767
    ensures ToInt16(v) == v
  {
  }

  /** The two filter pairs one after the other, with nothing lost between, delay a stream by eleven frames and change a
      sample by at most a 413th of the loudest one in the 23 frames it depends on, and 7: whatever both lines held
      before. */
  lemma FiltersOnlyDelay(cfg: Config, x: History, z: History, frames: seq<Frame>, pairs: seq<(Limited, Limited)>,
                         t: nat, peak: int)
    requires !cfg.testMode && !cfg.eightK && 22 <= t < |frames| && Split(cfg, x, frames).1 == pairs
    requires peak <= 32680 && Quiet(frames, t, peak)
    ensures var heard := Join(cfg, z, pairs).1[t];
            && |heard| == 2
            && Distance(heard[0], frames[t - 11].0) <= peak / 413 + 7
            && Distance(heard[1], frames[t - 11].1) <= peak / 413 + 7
  {
    SamplesAt(cfg, z, pairs, t);
    FirstSample(cfg, x, frames, pairs, t, peak);
    SecondSample(cfg, x, frames, pairs, t, peak);
    assert -peak <= frames[t - 11].0 <= peak && -peak <= frames[t - 11].1 <= peak;
    CastIsLossless(Backward(Differences(pairs), t - 11, 12) / 2048);
    CastIsLossless(Forward(Sums(pairs), t - 11, 12) / 2048);
  }

  lemma {:induction false} PairsFlat<T>(parts: seq<seq<T>>, n: nat)
    requires forall i :: 0 <= i < |parts| ==> |parts[i]| == 2
    ensures |Flatten(parts)| == 2 * |parts|
    ensures n < 2 * |parts| ==> Flatten(parts)[n] == parts[n / 2][n % 2]
  {
    if parts != [] {
      PairsFlat(parts[..|parts| - 1], n);
    }
  }

  lemma {:induction false} TwoSamplesEach(cfg: Config, z: History, pairs: seq<(Limited, Limited)>, i: nat)
    requires !cfg.testMode && !cfg.eightK && i < |pairs|
    ensures |Join(cfg, z, pairs).1[i]| == 2
  {
    RunPrefix(Joiner(cfg), z, pairs, i);
  }

  lemma QuietFrames(amp: seq<Int16>, t: nat, peak: int)
    requires 22 <= t < |Frames(amp, 2)| && forall i :: 0 <= i < |amp| ==> -peak <= amp[i] <= peak
    ensures Quiet(Frames(amp, 2), t, peak)
  {
    forall s | t - 22 <= s <= t
      ensures -peak <= Frames(amp, 2)[s].0 <= peak && -peak <= Frames(amp, 2)[s].1 <= peak
    {
      assert Frames(amp, 2)[s] == FrameOf(amp, 2, s);
    }
  }

  /** The same, sample by sample: what is put out is what was put in 22 samples before. */
  lemma SamplesOnlyDelay(cfg: Config, x: History, z: History, amp: seq<Int16>, pairs: seq<(Limited, Limited)>,
                         n: nat, peak: int)
    requires !cfg.testMode && !cfg.eightK && 44 <= n < |amp| && |amp| % 2 == 0
    requires Split(cfg, x, Frames(amp, 2)).1 == pairs
    requires peak <= 32680 && forall i :: 0 <= i < |amp| ==> -peak <= amp[i] <= peak
    ensures var heard := Flatten(Join(cfg, z, pairs).1);
            n < |heard| && Distance(heard[n], amp[n - 22]) <= peak / 413 + 7
  {
    var t, b := n / 2, n % 2;
    assert n == 2 * t + b && t < |Frames(amp, 2)|;
    QuietFrames(amp, t, peak);
    FiltersOnlyDelay(cfg, x, z, Frames(amp, 2), pairs, t, peak);
    assert Frames(amp, 2)[t - 11] == FrameOf(amp, 2, t - 11);
    forall i | 0 <= i < |pairs|
      ensures |Join(cfg, z, pairs).1[i]| == 2
    {
      TwoSamplesEach(cfg, z, pairs, i);
    }
    PairsFlat(Join(cfg, z, pairs).1, n);
    if b == 0 {
      assert amp[n - 22] == Frames(amp, 2)[t - 11].0;
    } else {
      assert amp[n - 22] == Frames(amp, 2)[t - 11].1;
    }
  }
}
