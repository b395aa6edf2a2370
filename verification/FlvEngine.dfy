/** The engine: frames through the muxer into the buffers, headers and buffers into the file. */
module FlvEngine {
  import opened CInt
  import opened Options
  import opened Memory
  import opened MemFile
  import opened FlvTag
  import opened FlvNal
  import opened FlvParse
  import opened FlvMux
  import opened FlvBuffers
  import opened FlvHandover
  import opened FlvRecorder

  /** The write buffer holds these packets. */
  predicate Writing(b: Three, packets: seq<Tag>) {
    var w := b.slots[b.wPos];
    w.size <= |w.data| && Holds(w.data, 0, w.size, packets)
  }

  predicate SameLength(b: Three, max: nat) {
    |b.slots[0].data| == max && |b.slots[1].data| == max && |b.slots[2].data| == max
  }

  /** The packets before a push that stay in the write buffer: all of them, until there is no room for one more or three
      seconds are recorded. */
  function Staying(b: Three, packets: seq<Tag>, t: Tag): seq<Tag> {
    if HandsOver(b.slots[b.wPos], packets, TagSize(t)) then [] else packets
  }

  lemma WritingIsReadable(b: Three, packets: seq<Tag>)
    requires Writing(b, packets)
    ensures Readable(b.slots[b.wPos])
  {
    TagsAreReadable(b.slots[b.wPos].data, 0, b.slots[b.wPos].size, packets);
  }

  /** A packet that fits an empty buffer can be pushed, and is then the last of the write buffer's packets; the packets
      that do not stay are in the buffer to read. */
  lemma PushIsLast(b: Three, packets: seq<Tag>, t: Tag, max: nat)
    requires SameLength(b, max) && Writing(b, packets) && TagOk(t) && TagSize(t) <= max
    ensures Readable(b.slots[b.wPos]) && Pushable(b, TagBytes(t))
    ensures var c := PushedData(b, TagBytes(t));
            && SameLength(c, max) && Writing(c, Staying(b, packets, t) + [t])
            && (HandsOver(b.slots[b.wPos], packets, TagSize(t)) ==> c.rFlag && c.slots[c.rPos] == b.slots[b.wPos])
            && (!HandsOver(b.slots[b.wPos], packets, TagSize(t)) ==> c.wPos == b.wPos && c.rPos == b.rPos && c.rFlag == b.rFlag)
  {
    SwitchExactlyWhen(b.slots[b.wPos], packets, TagSize(t));
    var p := Prepared(b, TagSize(t));
    var stay := Staying(b, packets, t);
    assert Writing(p, stay) by {
      assert p.slots[p.wPos].data[0..0] == [];
    }
    PutIsLast(p, stay, t);
  }

  /** From buffers b with some packets in the write buffer to buffers c: a reset empties all buffers first; then a packet
      made is put behind the packets that stay, which are all of them unless the buffers are switched, and none made
      changes nothing. */
  predicate TookIn(b: Three, packets: seq<Tag>, made: Option<Tag>, reset: Option<bool>, c: Three, after: seq<Tag>) {
    var from := if reset == Some(true) then ResetBuffers(b) else b;
    var before := if reset == Some(true) then [] else packets;
    match made
    case None => c == from && after == before
    case Some(t) =>
      && Readable(from.slots[from.wPos]) && Pushable(from, TagBytes(t))
      && c == PushedData(from, TagBytes(t)) && after == Staying(from, before, t) + [t]
  }

  lemma PutIsLast(p: Three, stay: seq<Tag>, t: Tag)
    requires Writing(p, stay) && TagOk(t) && p.slots[p.wPos].size + TagSize(t) <= |p.slots[p.wPos].data|
    ensures Writing(Published(PutBytes(p, TagBytes(t), TagSize(t)), TagSize(t)), stay + [t])
  {
    var w, bytes := p.slots[p.wPos], TagBytes(t);
    var after := Overwrite(w.data, w.size, bytes);
    assert bytes[..TagSize(t)] == bytes;
    assert after[..w.size] == w.data[..w.size] && after[w.size..w.size + TagSize(t)] == bytes;
    HoldsElsewhere(w.data, after, 0, w.size, stay);
    OneMore(after, w.size, stay, t);
  }

  class Engine {
    const muxer: Muxer
    const buffers: PingPong
    ghost var packets: seq<Tag>

    /** The muxer's packets fit the buffers; the write buffer holds whole packets. */
    ghost predicate Valid()
      reads this, muxer, buffers, buffers.ping, buffers.pong, buffers.temp,
            buffers.ping.data, buffers.pong.data, buffers.temp.data
    {
      && muxer.Valid() && buffers.Valid()
      && Apart(muxer.packet) && Apart(muxer.header) && Apart(muxer.sps) && Apart(muxer.pps)
      && muxer.packet.Length == buffers.ping.data.Length < 0x8000_0000
      && Writing(buffers.View(), packets)
    }

    ghost predicate Apart(a: array<Byte>) {
      a != buffers.ping.data && a != buffers.pong.data && a != buffers.temp.data
    }

    constructor (size: nat)
      requires size < 0x8000_0000
      ensures Valid() && packets == [] && fresh(muxer) && fresh(buffers)
      ensures buffers.View() == NewBuffers(size)
    {
      muxer := new Muxer(size);
      buffers := new PingPong(size);
      packets := [];
      new;
      assert |buffers.View().slots[PING].data| == size;
      assert buffers.View().slots[PING].data[0..0] == [];
    }

    method Empty()
      requires Valid()
      modifies this`packets, buffers, buffers.ping, buffers.pong, buffers.temp
      ensures Valid() && buffers.View() == ResetBuffers(old(buffers.View())) && packets == []
    {
      buffers.ResetAll();
      packets := [];
      assert buffers.View().slots[buffers.wPos].data[0..0] == [];
    }

    /** Put a packet the muxer made behind those that stay. */
    method Append(t: Tag)
      requires Valid() && TagOk(t) && muxer.packetSize <= muxer.packet.Length
      requires muxer.packet[..muxer.packetSize] == TagBytes(t)
      modifies this`packets, buffers, buffers.ping, buffers.pong, buffers.ping.data, buffers.pong.data
      ensures Valid()
      ensures TookIn(old(buffers.View()), old(packets), Some(t), None, buffers.View(), packets)
    {
      WritingIsReadable(buffers.View(), packets);
      PushIsLast(buffers.View(), packets, t, muxer.packet.Length);
      packets := Staying(buffers.View(), packets, t) + [t];
      buffers.PushData(muxer.packet[..muxer.packetSize]);
    }

    /** What both pushes do with a packet the muxer made. */
    method Keep(made: Option<Tag>, reset: Option<bool>)
      requires Valid() && (made.Some? ==> TagOk(made.value) && muxer.packetSize <= muxer.packet.Length)
      requires made.Some? ==> muxer.packet[..muxer.packetSize] == TagBytes(made.value)
      modifies this`packets, buffers, buffers.ping, buffers.pong, buffers.temp, buffers.ping.data, buffers.pong.data
      ensures Valid()
      ensures TookIn(old(buffers.View()), old(packets), made, reset, buffers.View(), packets)
    {
      if reset == Some(true) {
        Empty();
      }
      if made.Some? {
        Append(made.value);
      }
    }

    /** A frame becomes the last packet of the write buffer, if the muxer makes one of it. */
    method PushVideo(frame: seq<Byte>, ts: nat, clock: Clock) returns (made: Option<Tag>, reset: Option<bool>)
      requires Valid()
      requires |frame| != 4 && (|frame| >= 5 ==> Storable(frame))
      requires |frame| + 20 <= muxer.packet.Length || muxer.packet.Length < |frame| + 5
      modifies this`packets, muxer, muxer.packet, muxer.sps, muxer.pps
      modifies buffers, buffers.ping, buffers.pong, buffers.temp, buffers.ping.data, buffers.pong.data
      ensures Valid()
      ensures made.Some? <==> 5 <= |frame| && |frame| + 20 <= muxer.packet.Length && |frame| + 5 < 0x100_0000
      ensures var stamped := StampFor(old(muxer.base), ts, clock);
              && reset == (if 5 <= |frame| && |frame| + 20 <= muxer.packet.Length then stamped.reset else None)
              && (made.Some? ==> made.value == VideoTag(frame, Parsed(frame).key, stamped.stamp))
      ensures TookIn(old(buffers.View()), old(packets), made, reset, buffers.View(), packets)
    {
      made, reset := muxer.FillVideo(frame, ts, clock);
      Keep(made, reset);
    }

    method PushAudio(alaw: Int16 -> Byte, samples: seq<Int16>, ts: nat, clock: Clock)
      returns (made: Option<Tag>, reset: Option<bool>)
      requires Valid()
      requires |samples| + 16 <= muxer.packet.Length || muxer.packet.Length < |samples| + 1
      modifies this`packets, muxer, muxer.packet
      modifies buffers, buffers.ping, buffers.pong, buffers.temp, buffers.ping.data, buffers.pong.data
      ensures Valid()
      ensures made.Some? <==> 2 <= |samples| && |samples| + 16 <= muxer.packet.Length && |samples| + 1 < 0x100_0000
      ensures var stamped := StampFor(old(muxer.base), ts, clock);
              && reset == (if 2 <= |samples| && |samples| + 16 <= muxer.packet.Length then stamped.reset else None)
              && (made.Some? ==> made.value == AudioTag(alaw, samples, stamped.stamp))
      ensures TookIn(old(buffers.View()), old(packets), made, reset, buffers.View(), packets)
    {
      made, reset := muxer.FillAudio(alaw, samples, ts, clock);
      Keep(made, reset);
    }

    /** The preamble, whether it fits or not, then all header tags made so far. */
    method WriteHeader(file: MemoryFile) returns (result: int)
      requires Valid() && file.Valid() && file.signed && Apart(file.bin)
      requires file.bin != muxer.header && file.bin != muxer.packet && file.bin != muxer.sps && file.bin != muxer.pps
      requires muxer.headerSize + muxer.spsSize + muxer.ppsSize + 20 <= muxer.header.Length
      modifies muxer`headerSize, muxer.header, file, file.bin
      ensures Valid() && file.Valid() && file.signed
      ensures var headers := old(muxer.header[..muxer.headerSize]) + TagBytes(HeaderTag(muxer.SpsBytes(), muxer.PpsBytes()));
              && muxer.header[..muxer.headerSize] == headers
              && (file.View(), result) == WriteTo(WriteTo(old(file.View()), PREAMBLE).0, headers)
    {
      var ignored := file.FWrite(PREAMBLE, 1, |PREAMBLE|);
      var n := muxer.HeaderGet();
      result := file.FWrite(muxer.header[..n], 1, n);
    }

    /** A flush leaves the write buffer and its packets alone. */
    method WriteToFile(file: MemoryFile, key: bool, maxDur: int) returns (result: int, measure: Option<Measure>)
      requires Valid() && file.Valid() && file.signed && Apart(file.bin)
      requires Readable(Fetched(buffers.View()).slots[TEMP])
      modifies buffers`rFlag, buffers.temp, buffers.temp.data, file, file.bin
      ensures Valid() && file.Valid() && file.signed
      ensures (buffers.View(), file.View(), result, measure) == Flushed(old(buffers.View()), old(file.View()), key, maxDur)
      ensures buffers.View().slots[buffers.wPos] == old(buffers.View().slots[buffers.wPos])
    {
      result, measure := buffers.FlushToFile(file, key, maxDur);
    }
  }
}
