/** A sender and a receiver connected by nothing but the bytes. */
module G722Link {
  import opened CInt
  import opened G722Band
  import opened G722Coder
  import opened G722Filter
  import opened G722Packing
  import opened G722Encoder
  import opened G722Decoder
  import opened Sequences
  import opened Streams

  function Pairs(cfg: Config, x: History, frames: seq<Frame>): seq<(int, int)> {
    Split(cfg, x, frames).1
  }

  function Codes(cfg: Config, v: Sender, frames: seq<Frame>): seq<nat> {
    EncodeRun(cfg, v.bands, Pairs(cfg, v.x, frames)).1
  }

  /** The output stage as a stream of its own: the bytes each code put out. */
  function Packer(packed: bool, bits: Rate): (BitBuffer, nat) -> (BitBuffer, seq<nat>) {
    (r: BitBuffer, code: nat) => OutputStep(packed, bits, r, code)
  }

  /** The register and the bytes after a run of codes. */
  function BytesOf(packed: bool, bits: Rate, r: BitBuffer, codes: seq<nat>): (BitBuffer, seq<nat>) {
    if packed && bits < 8 then PackRun(r, codes, bits) else (r, codes)
  }

  lemma {:induction false} PackerBytes(packed: bool, bits: Rate, r: BitBuffer, codes: seq<nat>)
    ensures var out := Run(Packer(packed, bits), r, codes);
            BytesOf(packed, bits, r, codes) == (out.0, Flatten(out.1))
  {
    if codes == [] {
      assert Run(Packer(packed, bits), r, codes).1 == [];
    } else {
      assert codes == codes[..|codes| - 1] + [codes[|codes| - 1]];
      PackerBytes(packed, bits, r, codes[..|codes| - 1]);
      var out := Run(Packer(packed, bits), r, codes[..|codes| - 1]);
      FlattenSnoc(out.1, OutputStep(packed, bits, out.0, codes[|codes| - 1]).1);
    }
  }

  lemma {:induction false} SamplesOfCodes(cfg: Config, w: Receiver, codes: seq<nat>)
    ensures |Flatten(HearRun(cfg, w, codes).1)| == Samples(cfg, |codes|)
  {
    if codes == [] {
      HearNone(cfg, w);
    } else {
      var n := |codes| - 1;
      assert codes == codes[..n] + [codes[n]];
      SamplesOfCodes(cfg, w, codes[..n]);
      HearSnoc(cfg, w, codes[..n], codes[n]);
    }
  }

  /** As many samples are heard as were sent; in test mode both bands of every sample. */
  lemma AsManySamples(cfg: Config, w: Receiver, amp: seq<Int16>, codes: seq<nat>)
    requires |amp| % 2 == 0 || cfg.testMode || cfg.eightK
    requires |codes| == FrameCount(amp, FrameSize(cfg))
    ensures |Flatten(HearRun(cfg, w, codes).1)| == if cfg.testMode then 2 * |amp| else |amp|
  {
    SamplesOfCodes(cfg, w, codes);
  }

  function Stages(v: Sender): (History, Coder, BitBuffer) {
    (v.x, v.bands, v.register)
  }

  lemma SendStages(cfg: Config, packed: bool, v: Sender, f: Frame)
    ensures var split := SplitStep(cfg, v.x, f);
            var coded := EncodeStep(cfg, v.bands, split.1);
            var output := OutputStep(packed, cfg.bits, v.register, coded.1);
            && Stages(SendStep(cfg, packed, v, f).0) == (split.0, coded.0, output.0)
            && SendStep(cfg, packed, v, f).1 == output.1
  {
  }

  /** The coding loop is filter, coder and packer in sequence. */
  lemma SendIsPipeline(cfg: Config, packed: bool, v: Sender, frames: seq<Frame>)
    ensures var r := SendRun(cfg, packed, v, frames);
            var coded := EncodeRun(cfg, v.bands, Pairs(cfg, v.x, frames));
            && r.0.x == Split(cfg, v.x, frames).0 && r.0.bands == coded.0
            && (r.0.register, Flatten(r.1)) == BytesOf(packed, cfg.bits, v.register, coded.1)
  {
    var whole, first, second, third := SendLoop(cfg, packed), Splitter(cfg), Encoder(cfg), Packer(packed, cfg.bits);
    forall v: Sender, f: Frame
      ensures var a := first(Stages(v).0, f);
              var b := second(Stages(v).1, a.1);
              var c := third(Stages(v).2, b.1);
              Stages(whole(v, f).0) == (a.0, b.0, c.0) && whole(v, f).1 == c.1
    {
      SendStages(cfg, packed, v, f);
    }
    RunStages(whole, first, second, third, Stages, v, frames);
    PackerBytes(packed, cfg.bits, v.register, Codes(cfg, v, frames));
  }

  function HeardBands(v: Receiver): Coder {
    v.bands
  }

  lemma HearIsPipeline(cfg: Config, v: Receiver, codes: seq<nat>)
    ensures HearRun(cfg, v, codes).0.bands == DecodeRun(cfg, v.bands, codes).0
  {
    var whole, part := HearLoop(cfg), Decoder(cfg);
    forall v: Receiver, code: nat
      ensures HeardBands(whole(v, code).0) == part(HeardBands(v), code).0
    {
    }
    RunProject(whole, part, HeardBands, v, codes);
  }

  predicate CodesBelow(codes: seq<nat>, bits: Rate) {
    Pow2(bits) <= 256 && forall i :: 0 <= i < |codes| ==> codes[i] < Pow2(bits)
  }

  lemma CodesFit(cfg: Config, c: Coder, xs: seq<(int, int)>)
    ensures CodesBelow(EncodeRun(cfg, c, xs).1, cfg.bits)
  {
    CodeFitsRate(cfg, c, (0, 0));
    forall i | 0 <= i < |xs|
      ensures EncodeRun(cfg, c, xs).1[i] < Pow2(cfg.bits) <= 256
    {
      EncodePrefix(cfg, c, xs, i);
      CodeFitsRate(cfg, EncodeRun(cfg, c, xs[..i]).0, xs[i]);
    }
  }

  /** The receiver's codes are the sender's codes, all of them but the last two at most when packed. */
  lemma CodesArrive(packed: bool, bits: Rate, codes: seq<nat>)
    requires CodesBelow(codes, bits)
    ensures var empty := BitBuffer(0, 0);
            var bytes := BytesOf(packed, bits, empty, codes).1;
            && (forall i :: 0 <= i < |bytes| ==> bytes[i] < 256)
            && var taken := CodesOf(packed, bits, empty, bytes).1;
               && taken <= codes && |codes| - |taken| <= if packed && bits < 8 then 2 else 0
  {
    if packed && bits < 8 {
      PackedRoundTrip(codes, bits);
    }
  }

  /** A decoder that has heard the first codes has the bands the encoder had after the frames they came from. */
  lemma CodesFollowed(ecfg: Config, dcfg: Config, x: History, c: Coder, frames: seq<Frame>, heard: seq<nat>)
    requires dcfg.bits == ecfg.bits
    requires heard <= EncodeRun(ecfg, c, Pairs(ecfg, x, frames)).1
    ensures |heard| <= |frames|
    ensures SameState(ecfg, dcfg, EncodeRun(ecfg, c, Pairs(ecfg, x, frames[..|heard|])).0, DecodeRun(dcfg, c, heard).0)
  {
    var pairs := Pairs(ecfg, x, frames);
    SplitPrefix(ecfg, x, frames, |heard|);
    EncodePrefix(ecfg, c, pairs, |heard|);
    assert EncodeRun(ecfg, c, pairs).1[..|heard|] == heard;
    Lockstep(ecfg, dcfg, c, Pairs(ecfg, x, frames[..|heard|]));
  }

  lemma CodesAreBytes(cfg: Config, packed: bool, v: Sender, frames: seq<Frame>)
    requires v.register == BitBuffer(0, 0)
    ensures CodesBelow(Codes(cfg, v, frames), cfg.bits)
    ensures Flatten(SendRun(cfg, packed, v, frames).1) == BytesOf(packed, cfg.bits, BitBuffer(0, 0), Codes(cfg, v, frames)).1
  {
    SendIsPipeline(cfg, packed, v, frames);
    CodesFit(cfg, v.bands, Pairs(cfg, v.x, frames));
  }

  /** Connect an encoder to a decoder whose bands are in the same state, as those of two new ones are, at the same rate.
      After any input, the decoder has heard all codes but at most two still in the bit registers; its low band is the
      one the encoder had after the codes heard, and so is its high band if both ends agree on the 8 kHz option. */
  lemma ConnectedCodersAgree(ecfg: Config, dcfg: Config, packed: bool, v: Sender, w: Receiver, frames: seq<Frame>,
                             bytes: seq<Byte>, heard: seq<nat>)
    requires dcfg.bits == ecfg.bits && w.bands == v.bands && v.register == BitBuffer(0, 0)
    requires bytes == Flatten(SendRun(ecfg, packed, v, frames).1)
    requires heard == CodesOf(packed, dcfg.bits, BitBuffer(0, 0), bytes).1
    ensures |frames| - (if packed && ecfg.bits < 8 then 2 else 0) <= |heard| <= |frames|
    ensures SameState(ecfg, dcfg, SendRun(ecfg, packed, v, frames[..|heard|]).0.bands, HearRun(dcfg, w, heard).0.bands)
  {
    CodesAreBytes(ecfg, packed, v, frames);
    CodesArrive(packed, ecfg.bits, Codes(ecfg, v, frames));
    CodesFollowed(ecfg, dcfg, v.x, v.bands, frames, heard);
    SendIsPipeline(ecfg, packed, v, frames[..|heard|]);
    HearIsPipeline(dcfg, w, heard);
  }

  /** Two calls of the encoder are one call on both blocks. */
  lemma EncoderCallsCompose(cfg: Config, packed: bool, v: Sender, first: seq<Frame>, second: seq<Frame>)
    ensures var r := SendRun(cfg, packed, v, first);
            var s := SendRun(cfg, packed, r.0, second);
            SendRun(cfg, packed, v, first + second) == (s.0, r.1 + s.1)
  {
    RunConcat(SendLoop(cfg, packed), v, first, second);
  }

  /** Two calls of the decoder are one call on both blocks, whatever the registers hold in between. */
  lemma DecoderCallsCompose(cfg: Config, packed: bool, r: BitBuffer, v: Receiver, first: seq<Byte>, second: seq<Byte>)
    ensures var one := CodesOf(packed, cfg.bits, r, first);
            var two := CodesOf(packed, cfg.bits, one.0, second);
            var both := CodesOf(packed, cfg.bits, r, first + second);
            var heard := HearRun(cfg, v, one.1);
            var last := HearRun(cfg, heard.0, two.1);
            both == (two.0, one.1 + two.1) && HearRun(cfg, v, both.1) == (last.0, heard.1 + last.1)
  {
    if packed && cfg.bits < 8 {
      UnpackConcat(r, first, second, cfg.bits);
    }
    var one := CodesOf(packed, cfg.bits, r, first);
    RunConcat(HearLoop(cfg), v, one.1, CodesOf(packed, cfg.bits, one.0, second).1);
  }
}
