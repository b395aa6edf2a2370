/** The two G.722 coders as functions on the state of both bands, and what keeps them together. */
module G722Coder {
  import opened CInt
  import opened G722Tables
  import opened G722Band
  import opened Streams

  /** Bits per sample: 6, 7 and 8 stand for 48, 56 and 64 kbit/s. */
  type Rate = n: nat | 6 <= n <= 8 witness 8

  const SAMPLE_RATE_8000 := 1
  const PACKED := 2

  predicate HasOption(options: nat, flag: nat)
    requires flag > 0
  {
    options / flag % 2 == 1
  }

  datatype Config = Config(testMode: bool, eightK: bool, bits: Rate)

  datatype Bands = Bands(low: Band, high: Band)

  predicate LowOk(v: Band) {
    PredictorOk(v) && 0 <= v.nb <= LOW_TOP && v.det == Scale(v.nb, 8)
  }

  predicate HighOk(v: Band) {
    PredictorOk(v) && 0 <= v.nb <= HIGH_TOP && v.det == Scale(v.nb, 10)
  }

  predicate BandsOk(c: Bands) {
    match c
    case Bands(low, high) => LowOk(low) && HighOk(high)
  }

  /** The state a new coder starts in: all zero but for the smallest step sizes. */
  function Start(det: int): Band {
    Band(0, 0, 0, [0, 0, 0], [0, 0, 0], [0, 0, 0], [0, 0, 0], [0, 0, 0, 0, 0, 0, 0],
         [0, 0, 0, 0, 0, 0, 0], [0, 0, 0, 0, 0, 0, 0], [0, 0, 0, 0, 0, 0, 0], 0, det)
  }

  /** The reachable states of a coder: closed under every step below. */
  type Coder = c: Bands | BandsOk(c) witness NewBands()

  function NewBands(): (c: Bands)
    ensures BandsOk(c)
  {
    StartOk(32);
    StartOk(8);
    ScaleAtStart(8);
    ScaleOfZero(8);
    ScaleOfZero(10);
    ScaleAtStart(10);
    Bands(Start(32), Start(8))
  }

  lemma StartOk(det: int)
    ensures PredictorOk(Start(det))
  {
  }

  // The backward adaptation both ends perform. It sees only the four most significant low-band bits and the
  // two high-band bits of a code.

  function NextNb(nb: int, step: int, top: int): int {
    Clamp(nb * 127 / 128 + step, 0, top)
  }

  /** What a low-band code adds to the logarithm of the step size. */
  function LowStep(ril: nat): (step: int)
    requires ril < 16
    ensures -60 <= step <= 3042
  {
    WL[RL42[ril]]
  }

  function HighStep(ihigh: nat): (step: int)
    requires ihigh < 4
    ensures -214 <= step <= 798
  {
    WH[RH2[ihigh]]
  }

  function AdaptLow(v: Band, ril: nat): (w: Band)
    requires Shaped(v) && ril < 16
    ensures Shaped(w)
  {
    var nb := NextNb(v.nb, LowStep(ril), LOW_TOP);
    Adapt(v.(nb := nb, det := Scale(nb, 8)), v.det * QM4[ril] / 32768)
  }

  function AdaptHigh(v: Band, ihigh: nat): (w: Band)
    requires Shaped(v) && ihigh < 4
    ensures Shaped(w)
  {
    var nb := NextNb(v.nb, HighStep(ihigh), HIGH_TOP);
    Adapt(v.(nb := nb, det := Scale(nb, 10)), v.det * QM2[ihigh] / 32768)
  }

  lemma ProductRange(det: int, q: int)
    requires 0 <= det <= 16384 && -32768 < q < 32768
    ensures -16384 * 32767 <= det * q <= 16384 * 32767
    ensures -16384 <= det * q / 32768 <= 16384
  {
    MulBound(det, q, 16384, 32767);
  }

  lemma StepRange(ril: nat)
    requires ril < 16
    ensures -32768 < QM4[ril] < 32768
  {
  }

  lemma LevelRange(i: nat)
    requires i < 30
    ensures Q6[i] <= 2919
  {
  }

  lemma AdaptLowOk(v: Band, ril: nat)
    requires LowOk(v) && ril < 16
    ensures LowOk(AdaptLow(v, ril))
  {
    ScaleRange(v.nb, 8);
    ProductRange(v.det, QM4[ril]);
    var nb := NextNb(v.nb, LowStep(ril), LOW_TOP);
    AdaptOk(v.(nb := nb, det := Scale(nb, 8)), v.det * QM4[ril] / 32768);
  }

  lemma AdaptHighOk(v: Band, ihigh: nat)
    requires HighOk(v) && ihigh < 4
    ensures HighOk(AdaptHigh(v, ihigh))
  {
    ScaleRange(v.nb, 10);
    ProductRange(v.det, QM2[ihigh]);
    var nb := NextNb(v.nb, HighStep(ihigh), HIGH_TOP);
    AdaptOk(v.(nb := nb, det := Scale(nb, 10)), v.det * QM2[ihigh] / 32768);
  }

  // The encoder's quantisers.

  /** Upper edge of cell i of the low-band quantiser at step size det. */
  function Threshold(i: nat, det: int): int
    requires i < 32
  {
    Q6[i] * det / 4096
  }

  function Magnitude(e: int): int {
    if e >= 0 then e else -(e + 1)
  }

  /** The search of QUANTL from index i on; 30 is the overload cell. */
  function Cell(wd: int, det: int, i: nat): (r: nat)
    requires 1 <= i <= 30
    ensures i <= r <= 30
    decreases 30 - i
  {
    if i == 30 || wd < Threshold(i, det) then i else Cell(wd, det, i + 1)
  }

  function LowCode(v: Band, xlow: int): nat {
    var el := Saturate(xlow - v.s);
    var i := Cell(Magnitude(el), v.det, 1);
    if el < 0 then ILN[i] else ILP[i]
  }

  function HighCode(v: Band, xhigh: int): nat {
    var eh := Saturate(xhigh - v.s);
    var mih := if Magnitude(eh) >= 564 * v.det / 4096 then 2 else 1;
    if eh < 0 then IHN[mih] else IHP[mih]
  }

  lemma CodeTables(i: nat)
    requires 1 <= i <= 30
    ensures 4 <= ILN[i] < 64 && 32 <= ILP[i] < 62
  {
  }

  /** A low-band code is a 6-bit number and never one of the four lowest, which the decoder tables give no level. */
  lemma LowCodeRange(v: Band, xlow: int)
    ensures 4 <= LowCode(v, xlow) < 64
  {
    CodeTables(Cell(Magnitude(Saturate(xlow - v.s)), v.det, 1));
  }

  lemma HighCodeRange(v: Band, xhigh: int)
    ensures 0 <= HighCode(v, xhigh) < 4
  {
  }

  /** The 8-bit code before the rate shift. */
  function FullCode(ilow: nat, ihigh: nat, eightK: bool): nat {
    if eightK then BitOr(0xC0, ilow) else BitOr(Shl(ihigh, 6), ilow)
  }

  function RateShift(full: nat, bits: Rate): nat {
    Shr(full, 8 - bits)
  }

  // The decoder's unpacking of one code.

  function LowIndex(code: nat, bits: Rate): (r: nat)
    ensures r < if bits == 6 then 16 else if bits == 7 then 32 else 64
  {
    if bits == 6 then code % 16 else if bits == 7 then code % 32 else code % 64
  }

  function HighIndex(code: nat, bits: Rate): (r: nat)
    ensures r < 4
  {
    if bits == 6 then code / 16 % 4 else if bits == 7 then code / 32 % 4 else code / 64 % 4
  }

  function AdaptIndex(code: nat, bits: Rate): (r: nat)
    ensures r < 16
  {
    LowIndex(code, bits) / (if bits == 6 then 1 else if bits == 7 then 2 else 4)
  }

  function LowLevel(code: nat, bits: Rate): int {
    if bits == 6 then QM4[LowIndex(code, bits)]
    else if bits == 7 then QM5[LowIndex(code, bits)] else QM6[LowIndex(code, bits)]
  }

  // One code through each coder.

  /** The adaptation of both bands to a code. */
  function AdaptBoth(c: Coder, ril: nat, ihigh: nat, eightK: bool): Coder
    requires ril < 16 && ihigh < 4
  {
    AdaptLowOk(c.low, ril);
    AdaptHighOk(c.high, ihigh);
    Bands(AdaptLow(c.low, ril), if eightK then c.high else AdaptHigh(c.high, ihigh))
  }

  function EncodeStep(cfg: Config, c: Coder, x: (int, int)): (Coder, nat) {
    LowCodeRange(c.low, x.0);
    HighCodeRange(c.high, x.1);
    var ilow, ihigh := LowCode(c.low, x.0), HighCode(c.high, x.1);
    (AdaptBoth(c, ilow / 4, ihigh, cfg.eightK), RateShift(FullCode(ilow, ihigh, cfg.eightK), cfg.bits))
  }

  /** The decoded band pair is limited to 15 bits. */
  function Limit(r: int): int {
    Clamp(r, -16384, 16383)
  }

  function LowSample(v: Band, level: int): int {
    Limit(v.s + v.det * level / 32768)
  }

  function HighSample(v: Band, ihigh: nat): int
    requires ihigh < 4
  {
    Limit(v.det * QM2[ihigh] / 32768 + v.s)
  }

  function DecodedPair(cfg: Config, c: Coder, code: nat): (int, int) {
    (LowSample(c.low, LowLevel(code, cfg.bits)),
     if cfg.eightK then 0 else HighSample(c.high, HighIndex(code, cfg.bits)))
  }

  function DecodeStep(cfg: Config, c: Coder, code: nat): (Coder, (int, int)) {
    (AdaptBoth(c, AdaptIndex(code, cfg.bits), HighIndex(code, cfg.bits), cfg.eightK), DecodedPair(cfg, c, code))
  }

  // Streams.

  function Encoder(cfg: Config): (Coder, (int, int)) -> (Coder, nat) {
    (c: Coder, x: (int, int)) => EncodeStep(cfg, c, x)
  }

  function Decoder(cfg: Config): (Coder, nat) -> (Coder, (int, int)) {
    (c: Coder, code: nat) => DecodeStep(cfg, c, code)
  }

  /** The final state and the codes for a stream of (low, high) band samples. */
  function EncodeRun(cfg: Config, c: Coder, xs: seq<(int, int)>): (Coder, seq<nat>) {
    Run(Encoder(cfg), c, xs)
  }

  function DecodeRun(cfg: Config, c: Coder, codes: seq<nat>): (Coder, seq<(int, int)>) {
    Run(Decoder(cfg), c, codes)
  }

  lemma EncodePrefix(cfg: Config, c: Coder, xs: seq<(int, int)>, n: nat)
    requires n <= |xs|
    ensures EncodeRun(cfg, c, xs).1[..n] == EncodeRun(cfg, c, xs[..n]).1
    ensures n < |xs| ==> EncodeRun(cfg, c, xs).1[n] == EncodeStep(cfg, EncodeRun(cfg, c, xs[..n]).0, xs[n]).1
  {
    if n < |xs| {
      RunPrefix(Encoder(cfg), c, xs, n);
    } else {
      assert xs[..n] == xs;
    }
  }

  // Lockstep.

  lemma FullCodeValue(ilow: nat, ihigh: nat, eightK: bool)
    requires ilow < 64 && ihigh < 4
    ensures FullCode(ilow, ihigh, eightK) == 64 * (if eightK then 3 else ihigh) + ilow
  {
    var top := if eightK then 3 else ihigh;
    assert Pow2(6) == 64;
    assert Shl(top, 6) == 64 * top by {
      assert Shl(top, 3) == 8 * top && Shl(top, 6) == 8 * Shl(top, 3);
    }
    BitOrDisjoint(ilow, top, 6);
    BitOrComm(ilow, Shl(top, 6));
  }

  /** What adaptation needs survives the rate shift: the decoder reads the encoder's ilow >> 2 and ihigh at
      every rate. At 64 kbit/s it reads all of ilow. */
  lemma EmbeddedIndices(ilow: nat, ihigh: nat, eightK: bool, bits: Rate)
    requires ilow < 64 && ihigh < 4
    ensures var code := RateShift(FullCode(ilow, ihigh, eightK), bits);
            && AdaptIndex(code, bits) == ilow / 4
            && HighIndex(code, bits) == (if eightK then 3 else ihigh)
            && LowIndex(code, bits) == Shr(ilow, 8 - bits)
            && code < Pow2(bits)
  {
    FullCodeValue(ilow, ihigh, eightK);
    var full := FullCode(ilow, ihigh, eightK);
    ShrByHalves(full);
    ShrByHalves(ilow);
    SplitCode(ilow, if eightK then 3 else ihigh);
    assert Pow2(6) == 64 && Pow2(7) == 128 && Pow2(8) == 256;
  }

  lemma SplitCode(ilow: nat, top: nat)
    requires ilow < 64 && top < 4
    ensures var full := 64 * top + ilow;
            && full < 256 && full % 64 == ilow && full / 64 % 4 == top
            && full / 2 % 32 == ilow / 2 && full / 2 / 32 % 4 == top && ilow / 2 / 2 == ilow / 4
            && full / 4 % 16 == ilow / 4 && full / 4 / 16 % 4 == top
  {
    var full := 64 * top + ilow;
    assert full / 2 == 32 * top + ilow / 2 && full / 4 == 16 * top + ilow / 4;
    Digits(top, ilow, 64);
    Digits(top, ilow / 2, 32);
    Digits(top, ilow / 4, 16);
  }

  lemma Digits(high: nat, low: nat, radix: nat)
    requires low < radix && high < 4
    ensures (radix * high + low) % radix == low && (radix * high + low) / radix == high
  {
    var v := radix * high + low;
    DivisionIsUnique(v, radix, high, low);
  }

  lemma ShrByHalves(x: nat)
    ensures Shr(x, 0) == x && Shr(x, 1) == x / 2 && Shr(x, 2) == x / 4
  {
    assert Shr(x, 2) == Shr(x / 2, 1) == Shr(x / 2 / 2, 0);
  }

  /** A code has as many bits as the rate says. */
  lemma CodeFitsRate(cfg: Config, c: Coder, x: (int, int))
    ensures EncodeStep(cfg, c, x).1 < Pow2(cfg.bits) <= 256
  {
    LowCodeRange(c.low, x.0);
    HighCodeRange(c.high, x.1);
    EmbeddedIndices(LowCode(c.low, x.0), HighCode(c.high, x.1), cfg.eightK, cfg.bits);
    assert Pow2(6) == 64 && Pow2(7) == 128 && Pow2(8) == 256;
  }

  predicate SameState(ecfg: Config, dcfg: Config, e: Coder, d: Coder) {
    e.low == d.low && (ecfg.eightK == dcfg.eightK ==> e.high == d.high)
  }

  /** One sample through the encoder and its code through a decoder in the same state. */
  lemma SameStep(ecfg: Config, dcfg: Config, e: Coder, d: Coder, x: (int, int))
    requires dcfg.bits == ecfg.bits
    requires SameState(ecfg, dcfg, e, d)
    ensures var sent := EncodeStep(ecfg, e, x);
            && SameState(ecfg, dcfg, sent.0, DecodeStep(dcfg, d, sent.1).0)
            && sent.1 < Pow2(ecfg.bits)
  {
    LowCodeRange(e.low, x.0);
    HighCodeRange(e.high, x.1);
    EmbeddedIndices(LowCode(e.low, x.0), HighCode(e.high, x.1), ecfg.eightK, ecfg.bits);
  }

  lemma RoundKeepsState(ecfg: Config, dcfg: Config, e: Coder, d: Coder, x: (int, int))
    requires dcfg.bits == ecfg.bits && SameState(ecfg, dcfg, e, d)
    ensures SameState(ecfg, dcfg, Encoder(ecfg)(e, x).0, Decoder(dcfg)(d, Encoder(ecfg)(e, x).1).0)
  {
    SameStep(ecfg, dcfg, e, d, x);
  }

  lemma RunsKeepState(ecfg: Config, dcfg: Config, c: Coder, xs: seq<(int, int)>)
    requires dcfg.bits == ecfg.bits
    ensures SameState(ecfg, dcfg, EncodeRun(ecfg, c, xs).0, DecodeRun(dcfg, c, EncodeRun(ecfg, c, xs).1).0)
  {
    var send, receive := Encoder(ecfg), Decoder(dcfg);
    var related := (e: Coder, d: Coder) => SameState(ecfg, dcfg, e, d);
    forall e, d, x | related(e, d)
      ensures related(send(e, x).0, receive(d, send(e, x).1).0)
    {
      RoundKeepsState(ecfg, dcfg, e, d, x);
    }
    RunsInStep(send, receive, related, c, c, xs);
    assert related(EncodeRun(ecfg, c, xs).0, DecodeRun(dcfg, c, EncodeRun(ecfg, c, xs).1).0);
  }

  /** After every prefix of every input stream, at every rate, the decoder's low band is the encoder's; so is its
      high band whenever both ends agree on the 8 kHz option. */
  lemma Lockstep(ecfg: Config, dcfg: Config, c: Coder, xs: seq<(int, int)>)
    requires dcfg.bits == ecfg.bits
    ensures var sent := EncodeRun(ecfg, c, xs);
            var heard := DecodeRun(dcfg, c, sent.1);
            && heard.0.low == sent.0.low
            && (ecfg.eightK == dcfg.eightK ==> heard.0 == sent.0)
  {
    RunsKeepState(ecfg, dcfg, c, xs);
  }
}
