/** The decoder object: code bytes in, PCM samples out. */
module G722Decoder {
  import opened CInt
  import opened G722Tables
  import opened G722Band
  import opened G722Coder
  import opened G722BandState
  import opened G722Filter
  import opened G722Packing
  import opened Sequences
  import opened Streams

  /** The band state and delay line the decoder remembers between codes. */
  datatype DecoderView = DecoderView(x: seq<Int16>, bands: Bands)

  type Receiver = v: DecoderView | |v.x| == 24 && BandsOk(v.bands) witness DecoderView(SILENCE, NewBands())

  /** PCM samples put out for a number of codes. */
  function Samples(cfg: Config, codes: nat): nat {
    if cfg.eightK && !cfg.testMode then codes else 2 * codes
  }

  lemma PairLimited(cfg: Config, c: Coder, code: nat)
    ensures var pair := DecodedPair(cfg, c, code);
            -16384 <= pair.0 <= 16383 && -16384 <= pair.1 <= 16383
  {
  }

  /** The PCM samples of one code. */
  function HearStep(cfg: Config, v: Receiver, code: nat): (Receiver, seq<Int16>) {
    var heard := DecodeStep(cfg, v.bands, code);
    PairLimited(cfg, v.bands, code);
    var joined := JoinStep(cfg, v.x, heard.1);
    (DecoderView(joined.0, heard.0), joined.1)
  }

  function HearLoop(cfg: Config): (Receiver, nat) -> (Receiver, seq<Int16>) {
    (v: Receiver, code: nat) => HearStep(cfg, v, code)
  }

  function HearRun(cfg: Config, v: Receiver, codes: seq<nat>): (Receiver, seq<seq<Int16>>) {
    Run(HearLoop(cfg), v, codes)
  }

  lemma HearSnoc(cfg: Config, v: Receiver, codes: seq<nat>, code: nat)
    ensures var before := HearRun(cfg, v, codes);
            var step := HearStep(cfg, before.0, code);
            && HearRun(cfg, v, codes + [code]) == (step.0, before.1 + [step.1])
            && Flatten(before.1 + [step.1]) == Flatten(before.1) + step.1
  {
    RunSnoc(HearLoop(cfg), v, codes, code);
    FlattenSnoc(HearRun(cfg, v, codes).1, HearStep(cfg, HearRun(cfg, v, codes).0, code).1);
  }

  lemma HearNone(cfg: Config, v: Receiver)
    ensures HearRun(cfg, v, []) == (v, []) && Flatten<Int16>([]) == []
  {
  }

  /** The codes a call takes from its bytes, and the register it leaves. */
  function CodesOf(packed: bool, bits: Rate, r: BitBuffer, bytes: seq<Byte>): (BitBuffer, seq<nat>) {
    if packed && bits < 8 then UnpackRun(r, bytes, bits) else (r, bytes)
  }

  /** The two halves of the unpacking loop around its current position. */
  predicate Taken(packed: bool, bits: Rate, r: BitBuffer, bytes: seq<Byte>, codes: seq<nat>, now: BitBuffer, rest: seq<Byte>) {
    var left := CodesOf(packed, bits, now, rest);
    CodesOf(packed, bits, r, bytes) == (left.0, codes + left.1)
  }

  /** One round of the unpacking loop takes the first of the codes that are left. */
  lemma CodesAt(bits: Width, r: BitBuffer, bytes: seq<Byte>, j: nat, next: BitBuffer, code: nat, i: nat)
    requires BufferOk(r) && j < |bytes| && i == if r.count < bits then j + 1 else j
    requires (next, code) == TakeCode(if r.count < bits then Refill(r, bytes[j]) else r, bits)
    ensures BufferOk(next)
    ensures var left := UnpackRun(next, bytes[i..], bits);
            UnpackRun(r, bytes[j..], bits) == (left.0, [code] + left.1)
  {
    UnpackRound(r, bytes[j..], bits);
    assert bytes[j..][0] == bytes[j] && bytes[j..][1..] == bytes[j + 1..];
  }

  class DecoderState {
    var testMode: bool
    var packed: bool
    var eightK: bool
    var bits: Rate
    const x: array<Int16>
    const low: BandState
    const high: BandState
    var inBuffer: nat
    var inBits: nat

    ghost function Cfg(): Config
      reads this`testMode, this`eightK, this`bits
    {
      Config(testMode, eightK, bits)
    }

    ghost function State(): Bands
      reads low, high
    {
      Bands(low.View(), high.View())
    }

    ghost function Register(): BitBuffer
      reads this`inBuffer, this`inBits
    {
      BitBuffer(inBuffer, inBits)
    }

    ghost function View(): DecoderView
      reads x, low, high
    {
      DecoderView(x[..], State())
    }

    ghost predicate Valid()
      reads this, x, low, high
    {
      x.Length == 24 && low != high && BandsOk(State()) && (packed ==> bits < 8) && BufferOk(Register())
    }

    constructor (rate: int, options: nat)
      ensures Valid() && fresh(x) && fresh(low) && fresh(high)
      ensures bits == (if rate == 48000 then 6 else if rate == 56000 then 7 else 8)
      ensures eightK == HasOption(options, SAMPLE_RATE_8000) && packed == (HasOption(options, PACKED) && bits != 8) && !testMode
      ensures State() == NewBands() && x[..] == SILENCE && Register() == BitBuffer(0, 0)
    {
      var width: Rate := if rate == 48000 then 6 else if rate == 56000 then 7 else 8;
      testMode := false;
      bits := width;
      eightK := HasOption(options, SAMPLE_RATE_8000);
      packed := HasOption(options, PACKED) && width != 8;
      x := new Int16[24](_ => 0);
      low := new BandState(32);
      high := new BandState(8);
      inBuffer, inBits := 0, 0;
      new;
      assert State() == NewBands();
    }

    /** The code's table indices at the current rate. */
    method Unpick(code: nat) returns (ril: nat, ihigh: nat, level: int)
      ensures ril == AdaptIndex(code, bits) < 16 && ihigh == HighIndex(code, bits) < 4 && level == LowLevel(code, bits)
    {
      if bits == 7 {
        var wd1 := code % 32;
        ihigh := code / 32 % 4;
        level := QM5[wd1];
        ril := wd1 / 2;
      } else if bits == 6 {
        var wd1 := code % 16;
        ihigh := code / 16 % 4;
        level := QM4[wd1];
        ril := wd1;
      } else {
        var wd1 := code % 64;
        ihigh := code / 64 % 4;
        level := QM6[wd1];
        ril := wd1 / 4;
      }
    }

    /** Blocks 5L and 6L: the reconstructed and limited low-band sample. */
    method ReconstructLow(level: int) returns (rlow: Limited)
      requires LowOk(low.View()) && -32768 < level < 32768
      ensures rlow == LowSample(low.View(), level)
    {
      ScaleRange(low.nb, 8);
      var difference := low.Inverse(level);
      var sum: Int32 := low.s + difference;
      rlow := if sum > 16383 then 16383 else if sum < -16384 then -16384 else sum;
    }

    /** Blocks 2L to 4L. */
    method FollowLow(ril: nat)
      requires LowOk(low.View()) && ril < 16
      modifies low
      ensures low.View() == AdaptLow(old(low.View()), ril) && LowOk(low.View())
    {
      AdaptLowOk(low.View(), ril);
      ScaleRange(low.nb, 8);
      StepRange(ril);
      var dlowt := low.Inverse(QM4[ril]);
      low.LogScaleDecoder(LowStep(ril), 18432);
      low.Antilog(8);
      low.Block4(dlowt, false);
    }

    method ReceiveHigh(ihigh: nat) returns (rhigh: Limited)
      requires HighOk(high.View()) && ihigh < 4
      modifies high
      ensures rhigh == HighSample(old(high.View()), ihigh)
      ensures high.View() == AdaptHigh(old(high.View()), ihigh) && HighOk(high.View())
    {
      AdaptHighOk(high.View(), ihigh);
      ScaleRange(high.nb, 10);
      var dhigh := high.Inverse(QM2[ihigh]);
      var sum: Int32 := dhigh + high.s;
      rhigh := if sum > 16383 then 16383 else if sum < -16384 then -16384 else sum;
      high.LogScaleDecoder(HighStep(ihigh), 22528);
      high.Antilog(10);
      high.Block4(dhigh, false);
    }

    /** Both bands of one code. */
    method DecodeBands(code: nat) returns (rlow: Limited, rhigh: Limited)
      requires Valid()
      modifies low, high
      ensures LowOk(low.View()) && HighOk(high.View())
      ensures var ril, ihigh := AdaptIndex(code, bits), HighIndex(code, bits);
              && low.View() == AdaptLow(old(low.View()), ril)
              && (eightK ==> high.View() == old(high.View()) && rhigh == 0)
              && (!eightK ==> high.View() == AdaptHigh(old(high.View()), ihigh)
                              && rhigh == HighSample(old(high.View()), ihigh))
              && rlow == LowSample(old(low.View()), LowLevel(code, bits))
    {
      LevelSize(code, bits);
      var ril, ihigh, level := Unpick(code);
      rlow := ReconstructLow(level);
      FollowLow(ril);
      rhigh := 0;
      if !eightK {
        rhigh := ReceiveHigh(ihigh);
      }
    }

    method DecodePair(code: nat) returns (rlow: Limited, rhigh: Limited)
      requires Valid()
      modifies low, high
      ensures Valid() && (State(), (rlow, rhigh)) == DecodeStep(Cfg(), old(State()), code)
    {
      rlow, rhigh := DecodeBands(code);
      DecodeFromBands(Cfg(), old(State()), code, State(), (rlow, rhigh));
    }

    /** The PCM samples of a decoded pair, appended to the output. */
    method Emit(rlow: Limited, rhigh: Limited, amp: array<Int16>, n: nat) returns (m: nat)
      requires Valid() && amp != x && n + Samples(Cfg(), 1) <= amp.Length
      modifies x, amp
      ensures m == n + Samples(Cfg(), 1)
      ensures var joined := JoinStep(Cfg(), old(x[..]), (rlow, rhigh));
              x[..] == joined.0 && amp[..m] == old(amp[..n]) + joined.1
    {
      m := n;
      if testMode {
        amp[m] := ToInt16(rlow * 2);
        m := m + 1;
        amp[m] := ToInt16(rhigh * 2);
        m := m + 1;
      } else if eightK {
        amp[m] := ToInt16(rlow * 2);
        m := m + 1;
      } else {
        ghost var sent := amp[..n];
        ShiftIn(x, rlow + rhigh, rlow - rhigh);
        assert amp[..n] == sent;
        var xout1, xout2 := Accumulate(x);
        amp[m] := ToInt16(xout1 / 2048);
        m := m + 1;
        amp[m] := ToInt16(xout2 / 2048);
        m := m + 1;
      }
    }

    /** Take the next code from the input: a byte of its own, or bits of the register, refilled when it runs low. */
    method NextCode(bytes: seq<Byte>, j: nat) returns (code: nat, i: nat)
      requires Valid() && j < |bytes|
      modifies this`inBuffer, this`inBits
      ensures BufferOk(Register()) && j <= i <= j + 1 && i <= |bytes|
      ensures 8 * i + old(inBits) >= 8 * j + inBits && (i == j ==> inBits < old(inBits))
      ensures var left := CodesOf(packed, bits, Register(), bytes[i..]);
              CodesOf(packed, bits, old(Register()), bytes[j..]) == (left.0, [code] + left.1)
    {
      i := j;
      if packed {
        if inBits < bits {
          inBuffer := BitOr(inBuffer, Shl(bytes[i], inBits));
          i := i + 1;
          inBits := inBits + 8;
        }
        var radix := if bits == 6 then 64 else 128;
        code := inBuffer % radix;
        inBuffer := inBuffer / radix;
        inBits := inBits - bits;
        CodesAt(bits, old(Register()), bytes, j, Register(), code, i);
      } else {
        code := bytes[i];
        i := i + 1;
        assert bytes[j..] == [bytes[j]] + bytes[j + 1..];
      }
    }

    /** One pass of the decoding loop after its code is known. */
    method Sound(code: nat, amp: array<Int16>, n: nat) returns (m: nat)
      requires Valid() && amp != x && n + Samples(Cfg(), 1) <= amp.Length
      modifies x, low, high, amp
      ensures Valid() && m == n + Samples(Cfg(), 1)
      ensures var step := HearStep(Cfg(), old(View()), code);
              View() == step.0 && amp[..m] == old(amp[..n]) + step.1
    {
      ghost var sent := amp[..n];
      var rlow, rhigh := DecodePair(code);
      assert amp[..n] == sent;
      m := Emit(rlow, rhigh, amp, n);
    }

    /** The same pass, seen as the next step of a run that began at start. */
    method Advance(code: nat, amp: array<Int16>, n: nat,
                   ghost start: Receiver, ghost codes: seq<nat>, ghost parts: seq<seq<Int16>>)
      returns (m: nat, ghost more: seq<seq<Int16>>)
      requires Valid() && amp != x && n + Samples(Cfg(), 1) <= amp.Length
      requires (View(), parts) == HearRun(Cfg(), start, codes) && amp[..n] == Flatten(parts)
      modifies x, low, high, amp
      ensures Valid() && m == n + Samples(Cfg(), 1)
      ensures (View(), more) == HearRun(Cfg(), start, codes + [code]) && amp[..m] == Flatten(more)
    {
      ghost var step := HearStep(Cfg(), View(), code);
      HearSnoc(Cfg(), start, codes, code);
      assert HearRun(Cfg(), start, codes + [code]) == (step.0, parts + [step.1]);
      more := parts + [step.1];
      m := Sound(code, amp, n);
    }

    /** The decoder has heard the codes taken from bytes up to j, the first n samples of amp, since it was in state
        start with that register. */
    ghost predicate Heard(cfg: Config, pack: bool, register: BitBuffer, start: Receiver,
                          bytes: seq<Byte>, j: nat, codes: seq<nat>, amp: array<Int16>, n: nat)
      reads this, x, low, high, amp
    {
      j <= |bytes| && n == Samples(cfg, |codes|) && n <= amp.Length &&
      match HearRun(cfg, start, codes)
      case (v, parts) =>
        Valid() && Cfg() == cfg && packed == pack && View() == v && amp[..n] == Flatten(parts) &&
        Taken(packed, bits, register, bytes, codes, Register(), bytes[j..])
    }

    /** One pass of the decoding loop at input position j and output position n. */
    method Pass(bytes: seq<Byte>, j: nat, amp: array<Int16>, n: nat,
                ghost register: BitBuffer, ghost start: Receiver, ghost codes: seq<nat>)
      returns (i: nat, m: nat, ghost code: nat)
      requires Heard(Cfg(), packed, register, start, bytes, j, codes, amp, n)
      requires amp != x && j < |bytes| && n + Samples(Cfg(), 1) <= amp.Length
      modifies this, x, low, high, amp
      ensures i <= |bytes| && (i == j ==> inBits < old(inBits)) && 8 * i + old(inBits) >= 8 * j + inBits
      ensures Heard(old(Cfg()), old(packed), register, start, bytes, i, codes + [code], amp, m)
    {
      var c;
      c, i := NextCode(bytes, j);
      code := c;
      Regrouped(codes, code, CodesOf(packed, bits, Register(), bytes[i..]).1);
      ghost var parts := HearRun(Cfg(), start, codes).1;
      m, parts := Advance(c, amp, n, start, codes, parts);
    }

    /** Decode a block of bytes: the codes taken are those of CodesOf, and the PCM samples, the band states and the
        delay line are those of the decoder run on these codes. */
    method Decode(bytes: seq<Byte>, amp: array<Int16>) returns (n: nat)
      requires Valid() && amp != x
      requires Samples(Cfg(), |CodesOf(packed, bits, Register(), bytes).1|) <= amp.Length
      modifies this, x, low, high, amp
      ensures Valid() && Cfg() == old(Cfg()) && packed == old(packed)
      ensures var taken := CodesOf(packed, bits, old(Register()), bytes);
              var r := HearRun(Cfg(), old(View()), taken.1);
              && Register() == taken.0 && View() == r.0
              && n == Samples(Cfg(), |taken.1|) <= amp.Length && amp[..n] == Flatten(r.1)
    {
      n := 0;
      var j := 0;
      ghost var cfg, pack, start, register := Cfg(), packed, View(), Register();
      ghost var codes: seq<nat> := [];
      NothingTaken(pack, cfg.bits, register, bytes);
      HearNone(cfg, start);
      while j < |bytes|
        invariant Heard(cfg, pack, register, start, bytes, j, codes, amp, n)
        decreases 8 * (|bytes| - j) + inBits
      {
        ghost var code;
        RoomForOne(pack, cfg, register, bytes, codes, Register(), bytes[j..]);
        j, n, code := Pass(bytes, j, amp, n, register, start, codes);
        codes := codes + [code];
      }
      assert bytes[j..] == [];
      assert codes + [] == codes;
    }
  }

  lemma NothingTaken(packed: bool, bits: Rate, r: BitBuffer, bytes: seq<Byte>)
    ensures Taken(packed, bits, r, bytes, [], r, bytes[0..])
  {
    assert bytes[0..] == bytes && [] + CodesOf(packed, bits, r, bytes).1 == CodesOf(packed, bits, r, bytes).1;
  }

  /** While bytes are left there is a code left, and room for its samples. */
  lemma RoomForOne(packed: bool, cfg: Config, r: BitBuffer, bytes: seq<Byte>, codes: seq<nat>, now: BitBuffer, rest: seq<Byte>)
    requires rest != [] && Taken(packed, cfg.bits, r, bytes, codes, now, rest)
    ensures Samples(cfg, |codes|) + Samples(cfg, 1) <= Samples(cfg, |CodesOf(packed, cfg.bits, r, bytes).1|)
  {
  }

  lemma Regrouped(codes: seq<nat>, code: nat, rest: seq<nat>)
    ensures codes + ([code] + rest) == (codes + [code]) + rest
  {
  }

  lemma LevelSizeAtSix(i: nat)
    requires i < 64
    ensures -32768 < QM6[i] < 32768
  {
  }

  lemma LevelSizeAtFive(i: nat)
    requires i < 32
    ensures -32768 < QM5[i] < 32768
  {
  }

  lemma LevelSize(code: nat, bits: Rate)
    ensures -32768 < LowLevel(code, bits) < 32768
  {
    var i := LowIndex(code, bits);
    if bits == 6 {
      StepRange(i);
    } else if bits == 7 {
      LevelSizeAtFive(i);
    } else {
      LevelSizeAtSix(i);
    }
  }

  lemma DecodeFromBands(cfg: Config, c: Coder, code: nat, after: Coder, pair: (int, int))
    requires after.low == AdaptLow(c.low, AdaptIndex(code, cfg.bits))
    requires after.high == if cfg.eightK then c.high else AdaptHigh(c.high, HighIndex(code, cfg.bits))
    requires pair.0 == LowSample(c.low, LowLevel(code, cfg.bits))
    requires pair.1 == if cfg.eightK then 0 else HighSample(c.high, HighIndex(code, cfg.bits))
    ensures (after, pair) == DecodeStep(cfg, c, code)
  {
  }
}
