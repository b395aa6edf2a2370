/** The quadrature mirror filters and the framing of PCM samples around them. */
module G722Filter {
  import opened CInt
  import opened G722Tables
  import opened G722Coder
  import opened Streams

  /** The 24-sample delay line of either filter. */
  type History = x: seq<Int16> | |x| == 24 witness SILENCE

  const SILENCE: seq<Int16> := [0, 0, 0, 0, 0, 0, 0, 0, 0, 0, 0, 0, 0, 0, 0, 0, 0, 0, 0, 0, 0, 0, 0, 0]

  function SumOdd(x: History, n: nat): int
    requires n <= 12
  {
    if n == 0 then 0 else SumOdd(x, n - 1) + x[2 * (n - 1)] * QMF[n - 1]
  }

  function SumEven(x: History, n: nat): int
    requires n <= 12
  {
    if n == 0 then 0 else SumEven(x, n - 1) + x[2 * (n - 1) + 1] * QMF[12 - n]
  }

  function Gain(n: nat): nat
    requires n <= 12
  {
    if n == 0 then 0 else Gain(n - 1) + Abs(QMF[n - 1])
  }

  function GainFromEnd(n: nat): nat
    requires n <= 12
  {
    if n == 0 then 0 else GainFromEnd(n - 1) + Abs(QMF[12 - n])
  }

  lemma {:induction false} GainAtMost(n: nat)
    requires n <= 12
    ensures Gain(n) <= 6482 && GainFromEnd(n) <= 6482
    decreases 12 - n
  {
    if n == 12 {
      assert Gain(6) == 1219 && GainFromEnd(6) == 5263;
    } else {
      GainAtMost(n + 1);
    }
  }

  lemma {:induction false} OddBounded(x: History, n: nat)
    requires n <= 12
    ensures Abs(SumOdd(x, n)) <= 32768 * Gain(n)
  {
    if n > 0 {
      OddBounded(x, n - 1);
      MulBound(x[2 * (n - 1)], QMF[n - 1], 32768, Abs(QMF[n - 1]));
    }
  }

  lemma {:induction false} EvenBounded(x: History, n: nat)
    requires n <= 12
    ensures Abs(SumEven(x, n)) <= 32768 * GainFromEnd(n)
  {
    if n > 0 {
      EvenBounded(x, n - 1);
      MulBound(x[2 * (n - 1) + 1], QMF[12 - n], 32768, Abs(QMF[12 - n]));
    }
  }

  /** Neither accumulator, nor their sum or difference, leaves 32 bits. */
  lemma SumsFit(x: History, n: nat)
    requires n <= 12
    ensures Abs(SumOdd(x, n)) <= 212402176 && Abs(SumEven(x, n)) <= 212402176
  {
    OddBounded(x, n);
    EvenBounded(x, n);
    GainAtMost(n);
  }

  /** The PCM samples consumed for one code: two with the filter bank, the same one twice without it. */
  type Frame = (Int16, Int16)

  function FrameSize(cfg: Config): nat {
    if cfg.testMode || cfg.eightK then 1 else 2
  }

  function FrameCount(amp: seq<Int16>, w: nat): nat {
    if w == 1 then |amp| else |amp| / 2
  }

  function FrameOf(amp: seq<Int16>, w: nat, k: nat): Frame
    requires k < FrameCount(amp, w)
  {
    if w == 1 then (amp[k], amp[k]) else (amp[2 * k], amp[2 * k + 1])
  }

  function Frames(amp: seq<Int16>, w: nat): (r: seq<Frame>)
    ensures |r| == FrameCount(amp, w)
  {
    seq(FrameCount(amp, w), k requires 0 <= k < FrameCount(amp, w) => FrameOf(amp, w, k))
  }

  /** Samples are left exactly while frames are. */
  lemma FramesLeft(amp: seq<Int16>, w: nat, j: nat, k: nat)
    requires w == 1 || (w == 2 && |amp| % 2 == 0)
    requires j == if w == 1 then k else 2 * k
    ensures j < |amp| <==> k < |Frames(amp, w)|
  {
  }

  function Shift(x: History, a: Int16, b: Int16): History {
    x[2..] + [a, b]
  }

  /** The transmit side: band samples (low, high) of one frame. */
  function SplitStep(cfg: Config, x: History, f: Frame): (History, (int, int)) {
    if cfg.testMode then (x, (f.0 / 2, f.0 / 2))
    else if cfg.eightK then (x, (f.0 / 2, 0))
    else
      var y := Shift(x, f.0, f.1);
      (y, ((SumEven(y, 12) + SumOdd(y, 12)) / 16384, (SumEven(y, 12) - SumOdd(y, 12)) / 16384))
  }

  function Splitter(cfg: Config): (History, Frame) -> (History, (int, int)) {
    (x: History, f: Frame) => SplitStep(cfg, x, f)
  }

  /** A decoded band sample is within 15 bits. */
  type Limited = r: int | -16384 <= r <= 16383

  /** The receive side: the PCM samples of one decoded pair. */
  function JoinStep(cfg: Config, x: History, pair: (Limited, Limited)): (History, seq<Int16>) {
    if cfg.testMode then (x, [ToInt16(pair.0 * 2), ToInt16(pair.1 * 2)])
    else if cfg.eightK then (x, [ToInt16(pair.0 * 2)])
    else
      var y := Shift(x, pair.0 + pair.1, pair.0 - pair.1);
      (y, [ToInt16(SumEven(y, 12) / 2048), ToInt16(SumOdd(y, 12) / 2048)])
  }

  function Joiner(cfg: Config): (History, (Limited, Limited)) -> (History, seq<Int16>) {
    (x: History, pair: (Limited, Limited)) => JoinStep(cfg, x, pair)
  }

  function Split(cfg: Config, x: History, frames: seq<Frame>): (History, seq<(int, int)>) {
    Run(Splitter(cfg), x, frames)
  }

  function Join(cfg: Config, x: History, pairs: seq<(Limited, Limited)>): (History, seq<seq<Int16>>) {
    Run(Joiner(cfg), x, pairs)
  }

  lemma SplitPrefix(cfg: Config, x: History, frames: seq<Frame>, n: nat)
    requires n <= |frames|
    ensures Split(cfg, x, frames).1[..n] == Split(cfg, x, frames[..n]).1
  {
    if n < |frames| {
      RunPrefix(Splitter(cfg), x, frames, n);
    } else {
      assert frames[..n] == frames;
    }
  }

  /** The frame at sample j. */
  method Fetch(amp: seq<Int16>, w: nat, j: nat, ghost k: nat) returns (frame: Frame)
    requires k < |Frames(amp, w)| && j == if w == 1 then k else 2 * k
    ensures frame == Frames(amp, w)[k]
  {
    if w == 1 {
      frame := (amp[j], amp[j]);
    } else {
      frame := (amp[j], amp[j + 1]);
    }
  }

  /** Shift the delay line down by two and append two samples, in place. */
  method ShiftIn(x: array<Int16>, a: Int16, b: Int16)
    requires x.Length == 24
    modifies x
    ensures x[..] == Shift(old(x[..]), a, b)
  {
    var i := 0;
    while i < 22
      invariant 0 <= i <= 22
      invariant forall k :: 0 <= k < i ==> x[k] == old(x[k + 2])
      invariant forall k :: i <= k < 24 ==> x[k] == old(x[k])
    {
      x[i] := x[i + 2];
      i := i + 1;
    }
    x[22] := a;
    x[23] := b;
  }

  /** The two multiply-accumulate sums over the delay line, in 32-bit arithmetic. */
  method Accumulate(x: array<Int16>) returns (even: Int32, odd: Int32)
    requires x.Length == 24
    ensures even == SumEven(x[..], 12) && odd == SumOdd(x[..], 12)
    ensures Abs(even) <= 212402176 && Abs(odd) <= 212402176
  {
    even, odd := 0, 0;
    var i := 0;
    while i < 12
      invariant 0 <= i <= 12 && even == SumEven(x[..], i) && odd == SumOdd(x[..], i)
    {
      SumsFit(x[..], i + 1);
      MulBound(x[2 * i], QMF[i], 32768, 3876);
      MulBound(x[2 * i + 1], QMF[11 - i], 32768, 3876);
      var oddTap: Int32 := x[2 * i] * QMF[i];
      var evenTap: Int32 := x[2 * i + 1] * QMF[11 - i];
      odd := odd + oddTap;
      even := even + evenTap;
      i := i + 1;
    }
    SumsFit(x[..], 12);
  }
}
