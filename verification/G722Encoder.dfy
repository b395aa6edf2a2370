/** The encoder object: PCM samples in, code bytes out. */
module G722Encoder {
  import opened CInt
  import opened G722Tables
  import opened G722Band
  import opened G722Coder
  import opened G722BandState
  import opened G722Filter
  import opened G722Packing
  import opened Sequences
  import opened Streams

  /** Everything the encoder remembers between calls. */
  datatype EncoderView = EncoderView(x: seq<Int16>, bands: Bands, register: BitBuffer)

  type Sender = v: EncoderView | |v.x| == 24 && BandsOk(v.bands) && BufferOk(v.register)
    witness EncoderView(SILENCE, NewBands(), BitBuffer(0, 0))

  /** The code of the next frame, with the new delay line and bands. */
  function CodeStep(cfg: Config, x: History, c: Coder, f: Frame): (History, Coder, nat) {
    var split := SplitStep(cfg, x, f);
    var coded := EncodeStep(cfg, c, split.1);
    (split.0, coded.0, coded.1)
  }

  /** The bytes that fill up when a code is appended. */
  function OutputStep(packed: bool, bits: Rate, r: BitBuffer, code: nat): (BitBuffer, seq<nat>) {
    if packed && bits < 8 then PackStep(r, code, bits) else (r, [code])
  }

  lemma OutputKeepsRegister(packed: bool, bits: Rate, r: BitBuffer, code: nat)
    requires BufferOk(r) && code < Pow2(bits)
    ensures BufferOk(OutputStep(packed, bits, r, code).0)
  {
    if packed && bits < 8 {
      PackStepKeepsBits(r, code, bits);
    }
  }

  lemma CodeStepFits(cfg: Config, x: History, c: Coder, f: Frame)
    ensures CodeStep(cfg, x, c, f).2 < Pow2(cfg.bits) <= 256
  {
    CodeFitsRate(cfg, c, SplitStep(cfg, x, f).1);
  }

  /** One pass of the coding loop: filter, code both bands, put out a byte or the bytes that fill up. */
  function SendStep(cfg: Config, packed: bool, v: Sender, f: Frame): (Sender, seq<nat>) {
    var coded := CodeStep(cfg, v.x, v.bands, f);
    CodeStepFits(cfg, v.x, v.bands, f);
    OutputKeepsRegister(packed, cfg.bits, v.register, coded.2);
    var output := OutputStep(packed, cfg.bits, v.register, coded.2);
    (EncoderView(coded.0, coded.1, output.0), output.1)
  }

  function SendLoop(cfg: Config, packed: bool): (Sender, Frame) -> (Sender, seq<nat>) {
    (v: Sender, f: Frame) => SendStep(cfg, packed, v, f)
  }

  /** The whole coding loop over a block of frames, with the bytes each frame put out. */
  function SendRun(cfg: Config, packed: bool, v: Sender, frames: seq<Frame>): (Sender, seq<seq<nat>>) {
    Run(SendLoop(cfg, packed), v, frames)
  }

  lemma SendSnoc(cfg: Config, packed: bool, v: Sender, frames: seq<Frame>, k: nat)
    requires k < |frames|
    ensures var before := SendRun(cfg, packed, v, frames[..k]);
            var step := SendStep(cfg, packed, before.0, frames[k]);
            && SendRun(cfg, packed, v, frames[..k + 1]) == (step.0, before.1 + [step.1])
            && Flatten(before.1 + [step.1]) == Flatten(before.1) + step.1
  {
    var before := SendRun(cfg, packed, v, frames[..k]);
    assert frames[..k + 1] == frames[..k] + [frames[k]];
    RunSnoc(SendLoop(cfg, packed), v, frames[..k], frames[k]);
    FlattenSnoc(before.1, SendStep(cfg, packed, before.0, frames[k]).1);
  }

  lemma WholeBlock(cfg: Config, packed: bool, v: Sender, frames: seq<Frame>, k: nat)
    requires k == |frames|
    ensures SendRun(cfg, packed, v, frames[..k]) == SendRun(cfg, packed, v, frames)
  {
    assert frames[..k] == frames;
  }

  lemma SendNone(cfg: Config, packed: bool, v: Sender, frames: seq<Frame>)
    ensures SendRun(cfg, packed, v, frames[..0]) == (v, []) && Flatten<nat>([]) == []
  {
  }

  class EncoderState {
    var testMode: bool
    var packed: bool
    var eightK: bool
    var bits: Rate
    const x: array<Int16>
    const low: BandState
    const high: BandState
    var outBuffer: nat
    var outBits: nat

    ghost function Cfg(): Config
      reads this`testMode, this`eightK, this`bits
    {
      Config(testMode, eightK, bits)
    }

    ghost function State(): Bands
      reads low, high
    {
      Bands(low.View(), high.View())
    }

    ghost function Register(): BitBuffer
      reads this`outBuffer, this`outBits
    {
      BitBuffer(outBuffer, outBits)
    }

    ghost function View(): EncoderView
      reads this`outBuffer, this`outBits, x, low, high
    {
      EncoderView(x[..], State(), Register())
    }

    ghost predicate Valid()
      reads this, x, low, high
    {
      x.Length == 24 && low != high && BandsOk(State()) && (packed ==> bits < 8) && BufferOk(Register())
    }

    constructor (rate: int, options: nat)
      ensures Valid() && fresh(x) && fresh(low) && fresh(high)
      ensures bits == (if rate == 48000 then 6 else if rate == 56000 then 7 else 8)
      ensures eightK == HasOption(options, SAMPLE_RATE_8000) && packed == (HasOption(options, PACKED) && bits != 8) && !testMode
      ensures State() == NewBands() && x[..] == SILENCE && Register() == BitBuffer(0, 0)
    {
      var width: Rate := if rate == 48000 then 6 else if rate == 56000 then 7 else 8;
      testMode := false;
      bits := width;
      eightK := HasOption(options, SAMPLE_RATE_8000);
      packed := HasOption(options, PACKED) && width != 8;
      x := new Int16[24](_ => 0);
      low := new BandState(32);
      high := new BandState(8);
      outBuffer, outBits := 0, 0;
      new;
      assert State() == NewBands();
    }

    /** QUANTL: the linear search over the decision levels. */
    method Search(wd: Int32, det: Int32) returns (i: nat)
      requires 0 <= det <= 16384
      ensures i == Cell(wd, det, 1)
    {
      i := 1;
      while i < 30
        invariant 1 <= i <= 30 && Cell(wd, det, 1) == Cell(wd, det, i)
      {
        LevelRange(i);
        MulBound(Q6[i], det, 2919, 16384);
        var scaled: Int32 := Q6[i] * det;
        var wd1: Int32 := scaled / 4096;
        if wd < wd1 {
          break;
        }
        i := i + 1;
      }
    }

    /** Blocks 1L and 2L up to the code of one low-band sample. */
    method QuantiseLow(xlow: Int32) returns (ilow: nat)
      requires LowOk(low.View()) && -65536 <= xlow <= 65536
      ensures ilow == LowCode(low.View(), xlow)
    {
      ScaleRange(low.nb, 8);
      var el: Int32 := SaturateByTest(xlow - low.s);
      var wd: Int32 := if el >= 0 then el else -(el + 1);
      var i := Search(wd, low.det);
      ilow := if el < 0 then ILN[i] else ILP[i];
      assert el == Saturate(xlow - low.View().s) && wd == Magnitude(el);
      assert i == Cell(Magnitude(el), low.View().det, 1);
    }

    /** Blocks 2L to 4L: everything that depends on the code alone. */
    method FollowLow(ilow: nat)
      requires LowOk(low.View()) && ilow < 64
      modifies low
      ensures low.View() == AdaptLow(old(low.View()), ilow / 4) && LowOk(low.View())
    {
      AdaptLowOk(low.View(), ilow / 4);
      ScaleRange(low.nb, 8);
      StepRange(ilow / 4);
      var ril := ilow / 4;
      var dlow := low.Inverse(QM4[ril]);
      low.LogScaleEncoder(LowStep(ril), 18432);
      low.Antilog(8);
      low.Block4(dlow, true);
    }

    method QuantiseHigh(xhigh: Int32) returns (ihigh: nat)
      requires HighOk(high.View()) && -65536 <= xhigh <= 65536
      ensures ihigh == HighCode(high.View(), xhigh)
    {
      ScaleRange(high.nb, 10);
      var eh: Int32 := SaturateByTest(xhigh - high.s);
      var wd: Int32 := if eh >= 0 then eh else -(eh + 1);
      var wd1: Int32 := 564 * high.det;
      wd1 := wd1 / 4096;
      var mih := if wd >= wd1 then 2 else 1;
      ihigh := if eh < 0 then IHN[mih] else IHP[mih];
      assert eh == Saturate(xhigh - high.View().s) && wd == Magnitude(eh);
    }

    method FollowHigh(ihigh: nat)
      requires HighOk(high.View()) && ihigh < 4
      modifies high
      ensures high.View() == AdaptHigh(old(high.View()), ihigh) && HighOk(high.View())
    {
      AdaptHighOk(high.View(), ihigh);
      ScaleRange(high.nb, 10);
      var dhigh := high.Inverse(QM2[ihigh]);
      high.LogScaleEncoder(HighStep(ihigh), 22528);
      high.Antilog(10);
      high.Block4(dhigh, true);
    }

    /** The band samples of the next frame. */
    method Transmit(frame: Frame) returns (xlow: Int32, xhigh: Int32)
      requires Valid()
      modifies x
      ensures (x[..], (xlow, xhigh)) == SplitStep(Cfg(), old(x[..]), frame)
      ensures -65536 <= xlow <= 65536 && -65536 <= xhigh <= 65536
    {
      xhigh := 0;
      if testMode {
        xlow := frame.0 / 2;
        xhigh := xlow;
      } else if eightK {
        xlow := frame.0 / 2;
      } else {
        ShiftIn(x, frame.0, frame.1);
        var sumeven, sumodd := Accumulate(x);
        var sum: Int32 := sumeven + sumodd;
        var difference: Int32 := sumeven - sumodd;
        xlow := sum / 16384;
        xhigh := difference / 16384;
      }
    }

    /** The low band of one frame, then the high band. */
    method EncodeBands(xlow: Int32, xhigh: Int32) returns (ilow: nat, ihigh: nat)
      requires Valid() && -65536 <= xlow <= 65536 && -65536 <= xhigh <= 65536
      modifies low, high
      ensures LowOk(low.View()) && HighOk(high.View())
      ensures ilow == LowCode(old(low.View()), xlow) && ilow < 64
      ensures low.View() == AdaptLow(old(low.View()), ilow / 4)
      ensures eightK ==> high.View() == old(high.View())
      ensures !eightK ==> ihigh == HighCode(old(high.View()), xhigh) && ihigh < 4
                          && high.View() == AdaptHigh(old(high.View()), ihigh)
    {
      ilow := QuantiseLow(xlow);
      LowCodeRange(low.View(), xlow);
      FollowLow(ilow);
      ihigh := 0;
      if !eightK {
        ihigh := QuantiseHigh(xhigh);
        HighCodeRange(high.View(), xhigh);
        FollowHigh(ihigh);
      }
    }

    method EncodePair(xlow: Int32, xhigh: Int32) returns (code: nat)
      requires Valid() && -65536 <= xlow <= 65536 && -65536 <= xhigh <= 65536
      modifies low, high
      ensures Valid() && (State(), code) == EncodeStep(Cfg(), old(State()), (xlow, xhigh))
      ensures code < Pow2(bits) <= 256
    {
      var ilow, ihigh := EncodeBands(xlow, xhigh);
      if eightK {
        code := Shr(BitOr(0xC0, ilow), 8 - bits);
        NarrowStep(Cfg(), old(State()), (xlow, xhigh), ilow, State());
      } else {
        code := Shr(BitOr(Shl(ihigh, 6), ilow), 8 - bits);
        WideStep(Cfg(), old(State()), (xlow, xhigh), ilow, ihigh, State());
      }
    }

    /** One pass of the coding loop up to the code. */
    method EncodeFrame(frame: Frame) returns (code: nat)
      requires Valid()
      modifies x, low, high
      ensures Valid()
      ensures (x[..], State(), code) == CodeStep(Cfg(), old(x[..]), old(State()), frame)
      ensures code < Pow2(bits) <= 256
    {
      var xlow, xhigh := Transmit(frame);
      code := EncodePair(xlow, xhigh);
    }

    /** Append one code to the output, packed or as a byte of its own. */
    method Emit(code: nat, out: array<Byte>, n: nat) returns (m: nat)
      requires out as object != x && n < out.Length && code < Pow2(bits) <= 256 && BufferOk(Register()) && (packed ==> bits < 8)
      modifies this`outBuffer, this`outBits, out
      ensures n <= m <= n + 1 && BufferOk(Register()) && Cfg() == old(Cfg()) && packed == old(packed)
      ensures State() == old(State()) && x[..] == old(x[..])
      ensures var output := OutputStep(packed, bits, old(Register()), code);
              Register() == output.0 && out[..m] == old(out[..n]) + output.1
    {
      m := n;
      if packed {
        PackStepKeepsBits(Register(), code, bits);
        outBuffer := BitOr(outBuffer, Shl(code, outBits));
        outBits := outBits + bits;
        if outBits >= 8 {
          out[m] := outBuffer % 256;
          m := m + 1;
          outBits := outBits - 8;
          outBuffer := outBuffer / 256;
        }
      } else {
        out[m] := code % 256;
        m := m + 1;
      }
    }

    /** One pass of the coding loop. */
    method Next(frame: Frame, out: array<Byte>, n: nat) returns (m: nat)
      requires Valid() && out as object != x && n < out.Length
      modifies this, x, low, high, out
      ensures Valid() && Cfg() == old(Cfg()) && packed == old(packed) && n <= m <= n + 1
      ensures var step := SendStep(Cfg(), packed, old(View()), frame);
              View() == step.0 && out[..m] == old(out[..n]) + step.1
    {
      ghost var sent := out[..n];
      var code := EncodeFrame(frame);
      assert out[..n] == sent;
      m := Emit(code, out, n);
    }

    /** The same pass, seen as the next step of a run that began at start. */
    method Advance(frame: Frame, out: array<Byte>, n: nat,
                   ghost start: Sender, ghost frames: seq<Frame>, ghost k: nat, ghost parts: seq<seq<nat>>)
      returns (m: nat, ghost more: seq<seq<nat>>)
      requires Valid() && out as object != x && n < out.Length && k < |frames| && frame == frames[k]
      requires (View(), parts) == SendRun(Cfg(), packed, start, frames[..k]) && out[..n] == Flatten(parts)
      modifies this, x, low, high, out
      ensures Valid() && Cfg() == old(Cfg()) && packed == old(packed) && n <= m <= n + 1
      ensures (View(), more) == SendRun(Cfg(), packed, start, frames[..k + 1]) && out[..m] == Flatten(more)
    {
      SendSnoc(Cfg(), packed, start, frames, k);
      more := parts + [SendStep(Cfg(), packed, View(), frame).1];
      m := Next(frame, out, n);
    }

    /** The coder has sent k of the frames, the first n bytes of out, since it was in state start. */
    ghost predicate Sent(cfg: Config, pack: bool, start: Sender, frames: seq<Frame>, k: nat, out: array<Byte>, n: nat)
      reads this, x, low, high, out
    {
      n <= k <= |frames| && n <= out.Length &&
      match SendRun(cfg, pack, start, frames[..k])
      case (v, parts) => Valid() && Cfg() == cfg && packed == pack && View() == v && out[..n] == Flatten(parts)
    }

    /** The same pass at sample j of a block. */
    method Pass(amp: seq<Int16>, j: nat, out: array<Byte>, n: nat, ghost start: Sender, ghost frames: seq<Frame>, ghost k: nat)
      returns (i: nat, m: nat)
      requires Sent(Cfg(), packed, start, frames, k, out, n) && frames == Frames(amp, FrameSize(Cfg()))
      requires out as object != x && n < out.Length && k < |frames|
      requires j == if FrameSize(Cfg()) == 1 then k else 2 * k
      modifies this, x, low, high, out
      ensures i == if FrameSize(old(Cfg())) == 1 then k + 1 else 2 * (k + 1)
      ensures Sent(old(Cfg()), old(packed), start, frames, k + 1, out, m)
    {
      var w := if testMode || eightK then 1 else 2;
      var frame := Fetch(amp, w, j, k);
      ghost var parts := SendRun(Cfg(), packed, start, frames[..k]).1;
      m, parts := Advance(frame, out, n, start, frames, k, parts);
      i := j + w;
    }

    /** Code a block of samples. */
    method Encode(amp: seq<Int16>, out: array<Byte>) returns (n: nat)
      requires Valid() && out as object != x
      requires FrameSize(Cfg()) == 1 || |amp| % 2 == 0
      requires |Frames(amp, FrameSize(Cfg()))| <= out.Length
      modifies this, x, low, high, out
      ensures Valid() && Cfg() == old(Cfg()) && packed == old(packed) && n <= out.Length
      ensures var r := SendRun(Cfg(), packed, old(View()), Frames(amp, FrameSize(Cfg())));
              View() == r.0 && out[..n] == Flatten(r.1)
    {
      n := 0;
      ghost var cfg, pack, start, w := Cfg(), packed, View(), FrameSize(Cfg());
      ghost var frames := Frames(amp, w);
      SendNone(cfg, pack, start, frames);
      var j := 0;
      ghost var k := 0;
      while j < |amp|
        invariant j == if w == 1 then k else 2 * k
        invariant Sent(cfg, pack, start, frames, k, out, n)
      {
        FramesLeft(amp, w, j, k);
        j, n := Pass(amp, j, out, n, start, frames, k);
        k := k + 1;
      }
      FramesLeft(amp, w, j, k);
      WholeBlock(cfg, pack, start, frames, k);
    }
  }

  /** A step of the encoder from its parts, with the high band switched off. */
  lemma NarrowStep(cfg: Config, c: Coder, x: (int, int), ilow: nat, after: Coder)
    requires cfg.eightK && ilow == LowCode(c.low, x.0) && ilow < 64
    requires after.low == AdaptLow(c.low, ilow / 4) && after.high == c.high
    ensures (after, RateShift(BitOr(0xC0, ilow), cfg.bits)) == EncodeStep(cfg, c, x)
    ensures EncodeStep(cfg, c, x).1 < Pow2(cfg.bits) <= 256
  {
    CodeFitsRate(cfg, c, x);
  }

  /** A step of the encoder from its parts, with both bands. */
  lemma WideStep(cfg: Config, c: Coder, x: (int, int), ilow: nat, ihigh: nat, after: Coder)
    requires !cfg.eightK && ilow == LowCode(c.low, x.0) && ihigh == HighCode(c.high, x.1) && ilow < 64 && ihigh < 4
    requires after.low == AdaptLow(c.low, ilow / 4) && after.high == AdaptHigh(c.high, ihigh)
    ensures (after, RateShift(BitOr(Shl(ihigh, 6), ilow), cfg.bits)) == EncodeStep(cfg, c, x)
    ensures EncodeStep(cfg, c, x).1 < Pow2(cfg.bits) <= 256
  {
    CodeFitsRate(cfg, c, x);
  }
}
