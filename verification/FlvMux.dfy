/** The muxer: frames in, FLV tags out, and the AVC header tag built from the parameter sets seen last. */
module FlvMux {
  import opened CInt
  import opened Options
  import opened Memory
  import opened FlvTag
  import opened FlvNal
  import opened FlvRanges
  import opened FlvParse

  /** What the clock says, each of the up to three times a call reads it. */
  datatype Clock = Clock(first: UInt32, second: UInt32, third: UInt32)

  /** The time base after a call, the stamp of the packet, and the flag that the base was reset, if the call sets it. */
  datatype Stamped = Stamped(base: UInt32, stamp: UInt32, reset: Option<bool>)

  /** A caller's time stamp is relative to the first one; without one (0) the clock is used, and the base starts anew
      when the stamp runs past 0xEFFFFFFF. */
  function StampFor(base: UInt32, ts: nat, clock: Clock): Stamped {
    var started: UInt32 := if base != 0 then base else if ts != 0 then ts % TWO32 else clock.first;
    if ts != 0 then Stamped(started, Sub32(ts % TWO32, started), None)
    else if Sub32(clock.second, started) > 0xEFFF_FFFF then Stamped(clock.third, 0, Some(true))
    else Stamped(started, Sub32(clock.second, started), Some(false))
  }

  /** Frame and codec type, packet type, no composition time, and the data. */
  function AvcBody(frameType: Byte, packetType: Byte, data: seq<Byte>): seq<Byte> {
    [frameType, packetType, 0, 0, 0] + data
  }

  function VideoTag(frame: seq<Byte>, key: bool, stamp: UInt32): Tag {
    Tag(VIDEO, stamp, AvcBody(if key then 0x17 else 0x27, 1, frame))
  }

  function Companded(alaw: Int16 -> Byte, samples: seq<Int16>): seq<Byte> {
    seq(|samples|, i requires 0 <= i < |samples| => alaw(samples[i]))
  }

  function AudioTag(alaw: Int16 -> Byte, samples: seq<Int16>, stamp: UInt32): Tag {
    Tag(AUDIO, stamp, [0x72] + Companded(alaw, samples))
  }

  /** The AVC sequence header: a key frame of packet type 0 that carries the parameter sets. */
  function HeaderTag(sps: seq<Byte>, pps: seq<Byte>): Tag {
    Tag(VIDEO, 0, AvcBody(0x17, 0, sps + pps))
  }

  /** A video tag is a key-frame tag if and only if the first slice of its frame is an IDR slice. */
  lemma KeyTagIffIdr(units: seq<seq<Byte>>, stamp: UInt32)
    requires AllClean(units) && units != []
    ensures |ByteStream(units)| >= 5
    ensures IsKey(VideoTag(ByteStream(units), Parsed(ByteStream(units)).key, stamp)) <==> FirstSlice(units) == IDR
  {
    KeyIffFirstSliceIsIdr(units);
  }

  lemma OtherTagsAreNotKeys(alaw: Int16 -> Byte, samples: seq<Int16>, stamp: UInt32, sps: seq<Byte>, pps: seq<Byte>)
    ensures !IsKey(AudioTag(alaw, samples, stamp)) && IsKey(HeaderTag(sps, pps))
  {
  }

  /** Once a time base is set, the stamps of callers' times are as far apart as the times, modulo 2^32; and the base
      stays until the clock has to be used. */
  lemma StampsKeepDistances(base: UInt32, t: nat, u: nat, clock: Clock, other: Clock)
    requires base != 0 && t != 0 && u != 0
    ensures var a, b := StampFor(base, t, clock), StampFor(base, u, other);
            a.base == base == b.base && Sub32(b.stamp, a.stamp) == Sub32(u % TWO32, t % TWO32)
  {
  }

  /** FLVPacketCheck: the two sizes in the packet agree with its length. */
  predicate PacketOk(mem: seq<Byte>, p: nat, size: nat)
    requires 15 <= size && p + size <= |mem|
  {
    size == Get24(mem, p + 1) + 15 && Sub32(Get32(mem, p + size - 4), Get24(mem, p + 1)) == 11
  }

  lemma LowByteKept(q: nat, low: nat)
    ensures (0x100_0000 * q + low) % 0x100 == low % 0x100
  {
  }

  lemma MiddleByteKept(q: nat, low: nat)
    ensures (0x100_0000 * q + low) / 0x100 % 0x100 == low / 0x100 % 0x100
  {
    DivisionIsUnique(0x100_0000 * q + low, 0x100, 0x1_0000 * q + low / 0x100, low % 0x100);
    DivisionIsUnique(0x1_0000 * q + low / 0x100, 0x100, 0x100 * q + low / 0x100 / 0x100, low / 0x100 % 0x100);
  }

  lemma HighByteKept(q: nat, low: nat)
    ensures (0x100_0000 * q + low) / 0x1_0000 % 0x100 == low / 0x1_0000 % 0x100
  {
    DivisionIsUnique(0x100_0000 * q + low, 0x1_0000, 0x100 * q + low / 0x1_0000, low % 0x1_0000);
    DivisionIsUnique(0x100 * q + low / 0x1_0000, 0x100, q + low / 0x1_0000 / 0x100, low / 0x1_0000 % 0x100);
  }

  lemma Be24Wraps(n: nat, q: nat, low: nat)
    requires n == 0x100_0000 * q + low && low < 0x100_0000
    ensures Word24(n / 0x1_0000 % 256, n / 0x100 % 256, n % 256) == low
  {
    LowByteKept(q, low);
    MiddleByteKept(q, low);
    HighByteKept(q, low);
    Be24Read(low);
  }

  lemma SizesAgree(n: nat)
    requires n + 15 < 0x8000_0000
    ensures n + 15 == n % 0x100_0000 + 15 && Sub32(n + 11, n % 0x100_0000) == 11 <==> n < 0x100_0000
  {
  }

  /** The check passes on the bytes of a tag if and only if its body fits the 24-bit size. */
  lemma CheckIsSize(mem: seq<Byte>, p: nat, t: Tag)
    requires p + TagSize(t) <= |mem| && mem[p..p + TagSize(t)] == TagBytes(t) && TagSize(t) < 0x8000_0000
    ensures PacketOk(mem, p, TagSize(t)) <==> TagOk(t)
  {
    var n := |t.body|;
    TagParts(mem, p, t);
    var h := mem[p..p + 11];
    assert mem[p + 1] == h[1] && mem[p + 2] == h[2] && mem[p + 3] == h[3];
    Be24Wraps(n, n / 0x100_0000, n % 0x100_0000);
    assert Get24(mem, p + 1) == n % 0x100_0000;
    SealAt(mem, p + 11 + n, n + 11);
    assert Get32(mem, p + TagSize(t) - 4) == n + 11;
    SizesAgree(n);
  }

  method PacketCheck(data: array<Byte>, p: nat, size: nat) returns (ok: bool)
    requires 15 <= size && p + size <= data.Length
    ensures ok == PacketOk(data[..], p, size)
  {
    var dataSize := Load24(data, p + 1);
    var trailingSize := Load32(data, p + size - 4);
    ok := size == dataSize + 15 && Sub32(trailingSize, dataSize) == 11;
  }

  // Writing bytes behind those already in a buffer.

  /** Append bytes at position n. */
  method Append(buf: array<Byte>, n: nat, bytes: seq<Byte>) returns (m: nat)
    requires n + |bytes| <= buf.Length
    modifies buf
    ensures m == n + |bytes|
    ensures buf[..m] == old(buf[..n]) + bytes
  {
    Store(buf, n, bytes);
    m := n + |bytes|;
  }

  method AppendByte(buf: array<Byte>, n: nat, b: Byte) returns (m: nat)
    requires n < buf.Length
    modifies buf
    ensures m == n + 1 && buf[..m] == old(buf[..n]) + [b]
  {
    buf[n] := b;
    m := n + 1;
  }

  method AppendBe24(buf: array<Byte>, n: nat, v: nat) returns (m: nat)
    requires n + 3 <= buf.Length
    modifies buf
    ensures m == n + 3 && buf[..m] == old(buf[..n]) + Be24(v)
  {
    m := AppendByte(buf, n, v / 0x1_0000 % 256);
    m := AppendByte(buf, m, v / 0x100 % 256);
    m := AppendByte(buf, m, v % 256);
  }

  /** The eleven bytes in front of a body: type, size, time stamp, stream. */
  method AppendHeader(buf: array<Byte>, n: nat, kind: Byte, size: nat, stamp: UInt32) returns (m: nat)
    requires n + 11 <= buf.Length
    modifies buf
    ensures m == n + 11 && buf[..m] == old(buf[..n]) + Header(kind, size, stamp)
  {
    m := AppendByte(buf, n, kind);
    m := AppendBe24(buf, m, size);
    m := AppendBe24(buf, m, stamp);
    m := AppendByte(buf, m, stamp / 0x100_0000 % 256);
    m := AppendByte(buf, m, 0);
    m := AppendByte(buf, m, 0);
    m := AppendByte(buf, m, 0);
  }

  method AppendSeal(buf: array<Byte>, n: nat, size: nat) returns (m: nat)
    requires n + 4 <= buf.Length
    modifies buf
    ensures m == n + 4 && buf[..m] == old(buf[..n]) + Be32(size)
  {
    m := AppendByte(buf, n, size / 0x100_0000 % 256);
    m := AppendByte(buf, m, size / 0x1_0000 % 256);
    m := AppendByte(buf, m, size / 0x100 % 256);
    m := AppendByte(buf, m, size % 256);
  }

  /** Append the bytes of a whole tag. */
  method AppendTag(buf: array<Byte>, n: nat, kind: Byte, stamp: UInt32, prefix: seq<Byte>, payload: seq<Byte>)
    returns (m: nat)
    requires n + |prefix| + |payload| + 15 <= buf.Length
    modifies buf
    ensures m == n + |prefix| + |payload| + 15
    ensures buf[..m] == old(buf[..n]) + TagBytes(Tag(kind, stamp, prefix + payload))
  {
    m := AppendHeader(buf, n, kind, |prefix| + |payload|, stamp);
    m := Append(buf, m, prefix);
    m := Append(buf, m, payload);
    m := AppendSeal(buf, m, |prefix| + |payload| + 11);
  }

  const PARAMETER_MAX := 1024

  /** Whether a parameter set is kept: found, not empty, and short enough to store. */
  predicate IsKept(found: bool, length: nat) {
    found && 0 < length < PARAMETER_MAX
  }

  /** What is copied out of a frame lies inside it. */
  predicate CopiesInside(frame: seq<Byte>, info: FrameInfo) {
    && (IsKept(info.sps, info.spsLen) ==> info.spsOffset + info.spsLen <= |frame|)
    && (IsKept(info.pps, info.ppsLen) ==> info.ppsOffset + info.ppsLen <= |frame|)
  }

  /** The frame does not end with a parameter set for which a length too long is taken over, unless it is too long to be
      kept, too. */
  predicate Storable(frame: seq<Byte>)
    requires |frame| >= 5
  {
    Overruns(frame) ==> LengthAtEnd(Marks(frame, 0)) >= PARAMETER_MAX
  }

  /** And that is exactly when the copies stay inside. */
  lemma CopiesInsideExactlyWhen(frame: seq<Byte>)
    requires |frame| >= 5
    ensures CopiesInside(frame, Parsed(frame)) <==> Storable(frame)
  {
    RangesInsideExactlyWhen(frame);
    if Overruns(frame) {
      OverrunIsLast(frame);
    }
  }

  /** The set found in a frame, if it is kept; otherwise the one from before. */
  function KeptSet(before: seq<Byte>, frame: seq<Byte>, found: bool, offset: nat, length: nat): seq<Byte>
    requires IsKept(found, length) ==> offset + length <= |frame|
  {
    if IsKept(found, length) then frame[offset..offset + length] else before
  }

  class Muxer {
    const packet: array<Byte>
    const header: array<Byte>
    const sps: array<Byte>
    const pps: array<Byte>
    var packetSize: nat
    var headerSize: nat
    var spsSize: nat
    var ppsSize: nat
    var base: UInt32

    ghost predicate Valid()
      reads this
    {
      && sps.Length == PARAMETER_MAX && pps.Length == PARAMETER_MAX && header.Length == 2 * PARAMETER_MAX
      && spsSize < PARAMETER_MAX && ppsSize < PARAMETER_MAX && headerSize <= header.Length
      && packet != header && packet != sps && packet != pps && header != sps && header != pps && sps != pps
    }

    ghost function SpsBytes(): seq<Byte>
      requires Valid()
      reads this, sps
    {
      sps[..spsSize]
    }

    ghost function PpsBytes(): seq<Byte>
      requires Valid()
      reads this, pps
    {
      pps[..ppsSize]
    }

    constructor (size: nat)
      ensures Valid() && packet.Length == size && fresh(packet) && fresh(header) && fresh(sps) && fresh(pps)
      ensures SpsBytes() == [] && PpsBytes() == [] && headerSize == 0 && base == 0
    {
      packet := new Byte[size](_ => 0);
      header := new Byte[2 * PARAMETER_MAX](_ => 0);
      sps := new Byte[PARAMETER_MAX](_ => 0);
      pps := new Byte[PARAMETER_MAX](_ => 0);
      packetSize, headerSize, spsSize, ppsSize, base := 0, 0, 0, 0, 0;
    }

    /** Keep the parameter sets of a frame, unless they are empty or too long. */
    method StoreParameterSets(frame: seq<Byte>, info: FrameInfo)
      requires Valid()
      requires CopiesInside(frame, info)
      modifies this`spsSize, this`ppsSize, sps, pps
      ensures Valid()
      ensures SpsBytes() == KeptSet(old(SpsBytes()), frame, info.sps, info.spsOffset, info.spsLen)
      ensures PpsBytes() == KeptSet(old(PpsBytes()), frame, info.pps, info.ppsOffset, info.ppsLen)
    {
      if info.spsLen != 0 && info.sps && PARAMETER_MAX > info.spsLen {
        spsSize := Append(sps, 0, frame[info.spsOffset..info.spsOffset + info.spsLen]);
      }
      if info.ppsLen != 0 && info.pps && PARAMETER_MAX > info.ppsLen {
        ppsSize := Append(pps, 0, frame[info.ppsOffset..info.ppsOffset + info.ppsLen]);
      }
    }

    method TakeStamp(ts: nat, clock: Clock) returns (stamp: UInt32, reset: Option<bool>)
      requires Valid()
      modifies this`base
      ensures Valid() && Stamped(base, stamp, reset) == StampFor(old(base), ts, clock)
    {
      reset := None;
      if base == 0 {
        base := if ts != 0 then ts % TWO32 else clock.first;
      }
      if ts != 0 {
        stamp := Sub32(ts % TWO32, base);
      } else {
        stamp := Sub32(clock.second, base);
        if stamp > 0xEFFF_FFFF {
          base := clock.third;
          stamp := 0;
          reset := Some(true);
        } else {
          reset := Some(false);
        }
      }
    }

    /** Header, body prefix, payload and seal of a tag, from the start of the packet buffer. */
    method WritePacket(kind: Byte, stamp: UInt32, prefix: seq<Byte>, payload: seq<Byte>) returns (ok: bool)
      requires Valid() && |prefix| + |payload| + 15 <= packet.Length < 0x8000_0000
      modifies this`packetSize, packet
      ensures Valid()
      ensures var t := Tag(kind, stamp, prefix + payload);
              packetSize <= packet.Length && packet[..packetSize] == TagBytes(t) && ok == TagOk(t)
    {
      var n := AppendTag(packet, 0, kind, stamp, prefix, payload);
      packetSize := n;
      ghost var t := Tag(kind, stamp, prefix + payload);
      assert packet[..][0..n] == packet[..n] == TagBytes(t);
      ok := PacketCheck(packet, 0, n);
      CheckIsSize(packet[..], 0, t);
    }

    /** A video frame becomes a packet: none if the frame is too short, too long for the buffer or its tag too long for
        the format; otherwise the tag for the frame, marked as a key frame if the scan says so. */
    method FillVideo(frame: seq<Byte>, ts: nat, clock: Clock)
      returns (packetOf: Option<Tag>, reset: Option<bool>)
      requires Valid() && packet.Length < 0x8000_0000
      requires |frame| != 4 && (|frame| >= 5 ==> Storable(frame))
      requires |frame| + 20 <= packet.Length || packet.Length < |frame| + 5
      modifies this, packet, sps, pps
      ensures Valid() && headerSize == old(headerSize)
      ensures |frame| < 4 ==> packetOf == None && reset == None && base == old(base) && packetSize == old(packetSize)
                              && SpsBytes() == old(SpsBytes()) && PpsBytes() == old(PpsBytes())
      ensures |frame| >= 5 ==>
        var info := (CopiesInsideExactlyWhen(frame); Parsed(frame));
        && SpsBytes() == KeptSet(old(SpsBytes()), frame, info.sps, info.spsOffset, info.spsLen)
        && PpsBytes() == KeptSet(old(PpsBytes()), frame, info.pps, info.ppsOffset, info.ppsLen)
      ensures |frame| >= 5 && packet.Length < |frame| + 5 ==> packetOf == None && reset == None && base == old(base)
      ensures |frame| >= 5 && packet.Length >= |frame| + 5 ==>
        var stamped := StampFor(old(base), ts, clock);
        var t := VideoTag(frame, Parsed(frame).key, stamped.stamp);
        && base == stamped.base && reset == stamped.reset
        && packetSize <= packet.Length && packet[..packetSize] == TagBytes(t)
        && packetOf == if TagOk(t) then Some(t) else None
    {
      packetOf, reset := None, None;
      if |frame| < 4 {
        return;
      }
      var info := ParseFrame(frame);
      CopiesInsideExactlyWhen(frame);
      StoreParameterSets(frame, info);
      packetSize := |frame| + 5;
      if packet.Length < packetSize {
        return;
      }
      var stamp;
      stamp, reset := TakeStamp(ts, clock);
      var ok := WritePacket(VIDEO, stamp, [if info.key then 0x17 else 0x27, 1, 0, 0, 0], frame);
      if ok {
        packetOf := Some(VideoTag(frame, info.key, stamp));
      }
    }

    /** Audio samples become a packet of companded bytes, one for each 16-bit sample. */
    method FillAudio(alaw: Int16 -> Byte, samples: seq<Int16>, ts: nat, clock: Clock)
      returns (packetOf: Option<Tag>, reset: Option<bool>)
      requires Valid() && packet.Length < 0x8000_0000
      requires |samples| + 16 <= packet.Length || packet.Length < |samples| + 1
      modifies this`packetSize, this`base, packet
      ensures Valid()
      ensures |samples| < 2 ==> packetOf == None && reset == None && base == old(base) && packetSize == old(packetSize)
      ensures |samples| >= 2 && packet.Length < |samples| + 1 ==> packetOf == None && reset == None && base == old(base)
      ensures |samples| >= 2 && packet.Length >= |samples| + 1 ==>
        var stamped := StampFor(old(base), ts, clock);
        var t := AudioTag(alaw, samples, stamped.stamp);
        && base == stamped.base && reset == stamped.reset
        && packetSize <= packet.Length && packet[..packetSize] == TagBytes(t)
        && packetOf == if TagOk(t) then Some(t) else None
    {
      packetOf, reset := None, None;
      if 2 * |samples| < 4 {
        return;
      }
      packetSize := |samples| + 1;
      if packet.Length < packetSize {
        return;
      }
      var stamp;
      stamp, reset := TakeStamp(ts, clock);
      var ok := WritePacket(AUDIO, stamp, [0x72], Companded(alaw, samples));
      if ok {
        packetOf := Some(AudioTag(alaw, samples, stamp));
      }
    }

    /** Each call puts one more AVC header tag behind those already in the header buffer. */
    method HeaderGet() returns (n: nat)
      requires Valid() && headerSize + spsSize + ppsSize + 20 <= header.Length
      modifies this`headerSize, header
      ensures Valid() && n == headerSize
      ensures header[..headerSize] == old(header[..headerSize]) + TagBytes(HeaderTag(SpsBytes(), PpsBytes()))
    {
      var start := headerSize;
      ghost var t := HeaderTag(SpsBytes(), PpsBytes());
      n := AppendTag(header, start, VIDEO, 0, [0x17, 0, 0, 0, 0], sps[..spsSize] + pps[..ppsSize]);
      assert header[..][start..n] == header[..n][start..] == TagBytes(t);
      var ok := PacketCheck(header, start, n - start);
      CheckIsSize(header[..], start, t);
      if ok {
        headerSize := n;
      }
      n := headerSize;
    }
  }
}
