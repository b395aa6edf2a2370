/** The bodies of the muxer's tags as a player reads them (sections E.4.2 and E.4.3 of Adobe's Video File Format
    Specification 10.1), and the time stamps it gives them. */
module FlvBody {
  import opened CInt
  import opened Options
  import opened FlvTag
  import opened FlvNal
  import opened FlvMux

  // Video.

  const KEY_FRAME := 1
  const INTER_FRAME := 2
  const AVC := 7
  const SEQUENCE_HEADER := 0
  const NAL_UNITS := 1

  datatype Picture = Picture(frameType: nat, packetType: nat, compositionTime: nat, data: seq<Byte>)

  function PictureOf(body: seq<Byte>): Option<Picture> {
    if |body| < 5 || body[0] % 16 != AVC then None
    else Some(Picture(body[0] / 16, body[1], Get24(body, 2), body[5..]))
  }

  lemma PictureParts(first: Byte, second: Byte, data: seq<Byte>)
    requires first % 16 == AVC
    ensures PictureOf(AvcBody(first, second, data)) == Some(Picture(first / 16, second, 0, data))
  {
    assert AvcBody(first, second, data)[5..] == data;
  }

  lemma KeyFrameComesBack(frame: seq<Byte>, stamp: UInt32)
    ensures PictureOf(VideoTag(frame, true, stamp).body) == Some(Picture(KEY_FRAME, NAL_UNITS, 0, frame))
  {
    PictureParts(0x17, 1, frame);
  }

  lemma InterFrameComesBack(frame: seq<Byte>, stamp: UInt32)
    ensures PictureOf(VideoTag(frame, false, stamp).body) == Some(Picture(INTER_FRAME, NAL_UNITS, 0, frame))
  {
    PictureParts(0x27, 1, frame);
  }

  /** A frame reads as AVC units of a key or an inter frame, */
  lemma FrameComesBack(frame: seq<Byte>, key: bool, stamp: UInt32)
    ensures PictureOf(VideoTag(frame, key, stamp).body)
         == Some(Picture(if key then KEY_FRAME else INTER_FRAME, NAL_UNITS, 0, frame))
  {
    if key {
      KeyFrameComesBack(frame, stamp);
    } else {
      InterFrameComesBack(frame, stamp);
    }
  }

  /** and a header as the sequence header of both sets. */
  lemma SetsComeBack(sps: seq<Byte>, pps: seq<Byte>)
    ensures PictureOf(HeaderTag(sps, pps).body) == Some(Picture(KEY_FRAME, SEQUENCE_HEADER, 0, sps + pps))
  {
    PictureParts(0x17, 0, sps + pps);
  }

  // Sound.

  const A_LAW := 7

  datatype Sound = Sound(format: nat, rate: nat, wide: bool, stereo: bool, data: seq<Byte>)

  function SoundOf(body: seq<Byte>): Option<Sound> {
    if body == [] then None
    else Some(Sound(body[0] / 16, body[0] / 4 % 4, body[0] / 2 % 2 == 1, body[0] % 2 == 1, body[1..]))
  }

  /** Samples read as A-law sound in mono, a byte a sample. The rate bits stand for 5.5 kHz, whatever the rate is. */
  lemma SoundComesBack(alaw: Int16 -> Byte, samples: seq<Int16>, stamp: UInt32)
    ensures var sound := SoundOf(AudioTag(alaw, samples, stamp).body);
            && sound.Some? && sound.value.format == A_LAW && sound.value.rate == 0 && sound.value.wide && !sound.value.stereo
            && |sound.value.data| == |samples|
            && forall i :: 0 <= i < |samples| ==> sound.value.data[i] == alaw(samples[i])
  {
    assert AudioTag(alaw, samples, stamp).body[1..] == Companded(alaw, samples);
  }

  /** A tag as it stands in the file. */
  lemma TagExample()
    ensures TagBytes(Tag(VIDEO, 0x1234_5678, [0x27]))
         == [9, 0, 0, 1, 0x34, 0x56, 0x78, 0x12, 0, 0, 0, 0x27, 0, 0, 0, 12]
  {
  }

  // The header.

  lemma TwoSets(sps: seq<Byte>, pps: seq<Byte>)
    requires Clean(sps) && HasType(sps, SPS) && Clean(pps) && HasType(pps, PPS)
    ensures AllClean([sps, pps]) && ByteStream([sps, pps]) == Framed(sps) + Framed(pps)
  {
    assert [sps, pps][1..] == [pps] && [pps][1..] == [];
    assert ByteStream([pps]) == Framed(pps) + [];
  }

  /** The scan finds both sets in what a header carries. */
  lemma HeaderCarriesSets(sps: seq<Byte>, pps: seq<Byte>)
    requires Clean(sps) && HasType(sps, SPS) && Clean(pps) && HasType(pps, PPS)
    ensures var payload := HeaderTag(Framed(sps), Framed(pps)).body[5..];
            && |payload| >= 5
            && Parsed(payload) == NOTHING.(sps := true, spsLen := |sps| + 4, pps := true, ppsOffset := |sps| + 4)
            && payload[..|sps| + 4] == Framed(sps) && payload[|sps| + 4..] == Framed(pps)
  {
    var units := [sps, pps];
    TwoSets(sps, pps);
    StreamIsScanned(units);
    var payload := HeaderTag(Framed(sps), Framed(pps)).body[5..];
    assert payload == ByteStream(units);
    var len := |payload|;
    assert units[1..] == [pps] && [pps][1..] == [];
    MeetOne(units, 0, len, Walk(Other, NOTHING, false));
    MeetOne([pps], |sps| + 4, len, Meet(Walk(Other, NOTHING, false), SPS, 0, len));
  }

  /** An access unit of both sets and a slice leaves them with the muxer as they are in the frame, unless too long. */
  lemma AccessUnitKeepsSets(sps: seq<Byte>, pps: seq<Byte>, slice: seq<Byte>, oldSps: seq<Byte>, oldPps: seq<Byte>)
    requires Clean(sps) && Clean(pps) && Clean(slice)
    requires HasType(sps, SPS) && HasType(pps, PPS) && (HasType(slice, IDR) || HasType(slice, SLICE))
    ensures var frame := Framed(sps) + Framed(pps) + Framed(slice);
            && |frame| >= 5 && CopiesInside(frame, Parsed(frame))
            && var info := Parsed(frame);
               && KeptSet(oldSps, frame, info.sps, info.spsOffset, info.spsLen)
                  == (if |sps| + 4 < PARAMETER_MAX then Framed(sps) else oldSps)
               && KeptSet(oldPps, frame, info.pps, info.ppsOffset, info.ppsLen)
                  == (if |pps| + 4 < PARAMETER_MAX then Framed(pps) else oldPps)
  {
    AccessUnit(sps, [], pps, slice);
    var units := [sps] + [] + [pps, slice];
    assert units[1..] == [pps, slice] && [pps, slice][1..] == [slice] && [slice][1..] == [];
    assert ByteStream([slice]) == Framed(slice) + [];
    assert ByteStream(units) == Framed(sps) + (Framed(pps) + Framed(slice));
    assert ByteStream(units) == Framed(sps) + Framed(pps) + Framed(slice);
  }

  // Time stamps.

  /** A stamp and its base make the time now: the caller's, or the clock's if the caller gives none. The base stays once
      set, and is set to the first time seen; only when the clock is more than 0xEFFFFFFF past it does it start anew, with
      a stamp of 0, and that is told. */
  lemma StampCountsFromBase(base: UInt32, ts: nat, clock: Clock)
    ensures var s, now := StampFor(base, ts, clock), if ts != 0 then ts % TWO32 else clock.second;
            && (s.reset != Some(true) ==>
                  && (s.base + s.stamp) % TWO32 == now
                  && s.base == if base != 0 then base else if ts != 0 then ts % TWO32 else clock.first)
            && (s.reset == Some(true) ==> s.stamp == 0 && s.base == clock.third)
            && (s.reset == None <==> ts != 0) && s.stamp <= if ts != 0 then 0xFFFF_FFFF else 0xEFFF_FFFF
  {
  }

  lemma RestartExactlyWhen(base: UInt32, clock: Clock)
    requires base != 0
    ensures StampFor(base, 0, clock).reset == Some(true) <==> (clock.second - base) % TWO32 > 0xEFFF_FFFF
  {
    var d := clock.second - base;
    if d < 0 {
      DivisionIsUnique(d + TWO32, TWO32, 0, d + TWO32);
    }
  }

  /** The base after calls with these times. */
  function BaseAfter(times: seq<nat>, clocks: seq<Clock>): UInt32
    requires |times| == |clocks|
  {
    if times == [] then 0
    else
      var n := |times| - 1;
      StampFor(BaseAfter(times[..n], clocks[..n]), times[n], clocks[n]).base
  }

  lemma {:induction false} BaseIsFirst(times: seq<nat>, clocks: seq<Clock>)
    requires |times| == |clocks| && times != [] && times[0] % TWO32 != 0 && forall i :: 0 <= i < |times| ==> times[i] != 0
    ensures BaseAfter(times, clocks) == times[0] % TWO32
  {
    if |times| > 1 {
      BaseIsFirst(times[..|times| - 1], clocks[..|clocks| - 1]);
    } else {
      assert BaseAfter(times[..0], clocks[..0]) == 0;
    }
  }

  /** A muxer whose callers give the time stamps every packet with the time since the first, which gets 0. */
  lemma StampsCountFromFirst(times: seq<nat>, clocks: seq<Clock>, n: nat)
    requires |times| == |clocks| && n < |times| && times[0] % TWO32 != 0 && forall i :: 0 <= i < |times| ==> times[i] != 0
    ensures StampFor(BaseAfter(times[..n], clocks[..n]), times[n], clocks[n]).stamp
         == Sub32(times[n] % TWO32, times[0] % TWO32)
  {
    if n > 0 {
      BaseIsFirst(times[..n], clocks[..n]);
    }
  }
}
