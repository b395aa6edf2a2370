/** The ping, pong and temporary buffers: the object, and its calls as functions on its contents. */
module FlvBuffers {
  import opened CInt
  import opened Options
  import opened Memory
  import opened FlvTag
  import opened FlvParse
  import opened MemFile

  const PREREC_TIME_MS := 3000

  const PING := 0
  const PONG := 1
  const TEMP := 2

  /** A buffer's memory and how much of it is in use. */
  datatype Slot = Slot(data: seq<Byte>, size: nat)

  datatype Buffers = Buffers(slots: seq<Slot>, wPos: nat, rPos: nat, rFlag: bool, ready: bool)

  type Three = b: Buffers | |b.slots| == 3 && b.wPos < 2 && b.rPos < 2 && b.wPos != b.rPos
    witness Buffers([Slot([], 0), Slot([], 0), Slot([], 0)], PING, PONG, false, false)

  function NewBuffers(max: nat): Buffers {
    var empty := Slot(seq(max, _ => 0), 0);
    Buffers([empty, empty, empty], PING, PONG, false, false)
  }

  predicate Readable(s: Slot) {
    HeadersInside(s.data, 0, s.size)
  }

  /** Whether a packet of n bytes has to go to the other buffer: no room, or enough recorded. */
  predicate MustSwitch(s: Slot, n: nat)
    requires Readable(s)
  {
    |s.data| - s.size < n || MeasureFrom(s.data, 0, s.size, -1).duration >= PREREC_TIME_MS
  }

  /** The time from the first tag to the last. */
  function Recorded(tags: seq<Tag>): int {
    if tags == [] then 0 else ToInt32(Sub32(tags[|tags| - 1].stamp, tags[0].stamp))
  }

  /** A buffer that holds these tags is handed over before a packet of n bytes. */
  predicate HandsOver(s: Slot, tags: seq<Tag>, n: nat) {
    |s.data| - s.size < n || Recorded(tags) >= PREREC_TIME_MS
  }

  lemma WholeDuration(mem: seq<Byte>, p: nat, end: nat, tags: seq<Tag>, maxDur: int)
    requires Holds(mem, p, end, tags) && p < end && maxDur <= 0
    ensures HeadersInside(mem, p, end) && MeasureFrom(mem, p, end - p, maxDur).duration == Recorded(tags)
  {
    TagsComeBack(mem, p, end, tags);
    MeasureOfTags(mem, p, end, maxDur);
  }

  lemma LimitedDuration(mem: seq<Byte>, p: nat, end: nat, tags: seq<Tag>, maxDur: int, k: nat)
    requires Holds(mem, p, end, tags) && p < end && maxDur > 0
    requires k < |tags| && Reaches(tags, tags[0].stamp, maxDur, k)
    ensures HeadersInside(mem, p, end) && MeasureFrom(mem, p, end - p, maxDur).duration == Recorded(tags[..k + 1])
  {
    TagsComeBack(mem, p, end, tags);
    LimitDoesNotTrim(mem, p, end, maxDur, k);
  }

  /** Tags stay together until there is no room or three seconds are recorded; an empty buffer with room is never handed
      over. */
  lemma SwitchExactlyWhen(s: Slot, tags: seq<Tag>, n: nat)
    requires Holds(s.data, 0, s.size, tags)
    ensures Readable(s) && (MustSwitch(s, n) <==> HandsOver(s, tags, n))
    ensures tags == [] && n <= |s.data| ==> !MustSwitch(s, n)
  {
    TagsAreReadable(s.data, 0, s.size, tags);
    TagsComeBack(s.data, 0, s.size, tags);
    if tags == [] {
      assert s.size == 0;
    } else {
      MeasureOfTags(s.data, 0, s.size, -1);
    }
  }

  function Resized(b: Three, pos: nat, size: nat): Three
    requires pos < 3
  {
    b.(slots := b.slots[pos := b.slots[pos].(size := size)])
  }

  /** FLVBufferPrepareSize: maybe hand the write buffer to the reader and go on in the other one. */
  function Prepared(b: Three, n: nat): Three
    requires Readable(b.slots[b.wPos])
  {
    if MustSwitch(b.slots[b.wPos], n)
    then Resized(b.(rFlag := true, rPos := b.wPos, wPos := (b.wPos + 1) % 2, ready := true), (b.wPos + 1) % 2, 0)
    else b
  }

  /** Byte i of a packet put behind the data of the write buffer. */
  function PutByte(b: Three, i: nat, byte: Byte): Three
    requires b.slots[b.wPos].size + i < |b.slots[b.wPos].data|
  {
    var s := b.slots[b.wPos];
    b.(slots := b.slots[b.wPos := s.(data := s.data[s.size + i := byte])])
  }

  /** The first i bytes of a packet put behind the data of the write buffer. */
  function PutBytes(b: Three, packet: seq<Byte>, i: nat): Three
    requires i <= |packet| && b.slots[b.wPos].size + |packet| <= |b.slots[b.wPos].data|
  {
    var s := b.slots[b.wPos];
    b.(slots := b.slots[b.wPos := s.(data := Overwrite(s.data, s.size, packet[..i]))])
  }

  /** The packet counts as data. */
  function Published(b: Three, n: nat): Three {
    Resized(b, b.wPos, b.slots[b.wPos].size + n)
  }

  predicate Pushable(b: Three, packet: seq<Byte>) {
    && Readable(b.slots[b.wPos])
    && var p := Prepared(b, |packet|); p.slots[p.wPos].size + |packet| <= |p.slots[p.wPos].data|
  }

  /** FLVPPBuffPushData, from one end to the other. */
  function PushedData(b: Three, packet: seq<Byte>): Three
    requires Pushable(b, packet)
  {
    var p := Prepared(b, |packet|);
    Published(PutBytes(p, packet, |packet|), |packet|)
  }

  /** The locked part of the flush: take over what is ready to be read. */
  function Fetched(b: Three): Three
    requires b.slots[b.rPos].size <= |b.slots[b.rPos].data| && b.slots[b.rPos].size <= |b.slots[TEMP].data|
  {
    if b.rFlag then
      var r, t := b.slots[b.rPos], b.slots[TEMP];
      b.(slots := b.slots[TEMP := Slot(Overwrite(t.data, 0, r.data[..r.size]), r.size)], rFlag := false)
    else b
  }

  lemma {:induction false} KeyIsInside(mem: seq<Byte>, p: nat, end: nat)
    requires HeadersInside(mem, p, end) && FirstKey(mem, p, end).Some?
    ensures p <= FirstKey(mem, p, end).value < end && HeadersInside(mem, FirstKey(mem, p, end).value, end)
    decreases end - p
  {
    if !(mem[p] == VIDEO && mem[p + 11] / 16 == 1) {
      KeyIsInside(mem, NextTag(mem, p), end);
    }
  }

  /** Where writing starts: at the first key frame if one is asked for. */
  function StartOf(s: Slot, key: bool): (at: Option<nat>)
    requires Readable(s)
    ensures at.Some? && at.value < s.size ==> HeadersInside(s.data, at.value, s.size)
  {
    if key && SearchKey(s.data, 0, s.size).Some? then
      KeyIsInside(s.data, 0, s.size);
      SearchKey(s.data, 0, s.size)
    else if key then None else Some(0)
  }

  /** The bytes to write out of size bytes at a position, and what is reported about them. */
  function MeasuredPart(mem: seq<Byte>, at: nat, size: nat, maxDur: int): (seq<Byte>, Measure)
    requires HeadersInside(mem, at, at + size)
  {
    var m := MeasureFrom(mem, at, size, maxDur);
    (mem[at..at + m.size], m)
  }

  function Selected(s: Slot, at: nat, maxDur: int): (seq<Byte>, Measure)
    requires at < s.size <= |s.data| && HeadersInside(s.data, at, s.size)
  {
    MeasuredPart(s.data, at, s.size - at, maxDur)
  }

  function ClearedTemp(b: Three): Three {
    Resized(b, TEMP, 0)
  }

  function ResetBuffers(b: Three): Three {
    Resized(Resized(Resized(b.(rFlag := true), PING, 0), PONG, 0), TEMP, 0)
  }

  /** FLVPPBuffFlushToFilePointer, from one end to the other: result, and the duration, the
      number of video tags and the first time stamp if they are set. */
  function Flushed(b: Three, f: File, key: bool, maxDur: int): (Three, File, int, Option<Measure>)
    requires FileOk(f) && f.signed
    requires b.slots[b.rPos].size <= |b.slots[b.rPos].data| && b.slots[b.rPos].size <= |b.slots[TEMP].data|
    requires Readable(Fetched(b).slots[TEMP])
  {
    var c := Fetched(b);
    var at := StartOf(c.slots[TEMP], key);
    if at.None? || c.slots[TEMP].size <= at.value then (c, f, 0, None)
    else
      var chosen := Selected(c.slots[TEMP], at.value, maxDur);
      var written := WriteTo(f, chosen.0);
      (ClearedTemp(c), written.0, written.1, Some(chosen.1))
  }

  class FlvBuffer {
    const data: array<Byte>
    var size: nat

    ghost function View(): Slot
      reads this, data
    {
      Slot(data[..], size)
    }

    constructor (max: nat)
      ensures fresh(data) && data.Length == max && View() == Slot(seq(max, _ => 0), 0)
    {
      data := new Byte[max](_ => 0);
      size := 0;
    }
  }

  class PingPong {
    const ping: FlvBuffer
    const pong: FlvBuffer
    const temp: FlvBuffer
    var wPos: nat
    var rPos: nat
    var rFlag: bool
    var ready: bool

    ghost predicate Valid()
      reads this, ping, pong, temp
    {
      && ping != pong && ping != temp && pong != temp
      && ping.data != pong.data && ping.data != temp.data && pong.data != temp.data
      && ping.data.Length == pong.data.Length == temp.data.Length
      && ping.size <= ping.data.Length && pong.size <= pong.data.Length && temp.size <= temp.data.Length
      && wPos < 2 && rPos < 2 && wPos != rPos
    }

    ghost function View(): Three
      requires Valid()
      reads this, ping, pong, temp, ping.data, pong.data, temp.data
    {
      Buffers([ping.View(), pong.View(), temp.View()], wPos, rPos, rFlag, ready)
    }

    function Slots(pos: nat): (s: FlvBuffer)
      requires pos < 2
    {
      if pos == PING then ping else pong
    }

    constructor (max: nat)
      ensures Valid() && View() == NewBuffers(max)
      ensures fresh(ping) && fresh(pong) && fresh(temp) && fresh(ping.data) && fresh(pong.data) && fresh(temp.data)
    {
      ping := new FlvBuffer(max);
      pong := new FlvBuffer(max);
      temp := new FlvBuffer(max);
      wPos, rPos, rFlag, ready := PING, PONG, false, false;
    }

    method CheckRoom(n: nat) returns (full: bool)
      requires Valid() && Readable(View().slots[wPos])
      ensures full == MustSwitch(View().slots[wPos], n)
    {
      var w := Slots(wPos);
      assert View().slots[wPos] == w.View();
      var m := DurationGet(w.data, 0, w.size, -1);
      full := w.data.Length - w.size < n || m.duration >= PREREC_TIME_MS;
    }

    method PrepareSize(n: nat)
      requires Valid() && n > 0 && Readable(View().slots[wPos])
      modifies this, ping, pong
      ensures Valid() && View() == Prepared(old(View()), n)
    {
      var full := CheckRoom(n);
      if full {
        rFlag := true;
        rPos := wPos;
        wPos := (wPos + 1) % 2;
        var other := Slots(wPos);
        other.size := 0;
        ready := true;
      }
    }

    /** Copy a packet behind the data of the write buffer and count it as data. */
    method CopyIn(packet: seq<Byte>)
      requires Valid() && View().slots[wPos].size + |packet| <= |View().slots[wPos].data|
      modifies ping, pong, ping.data, pong.data
      ensures Valid() && View() == Published(PutBytes(old(View()), packet, |packet|), |packet|)
    {
      var w := Slots(wPos);
      Store(w.data, w.size, packet);
      assert packet[..|packet|] == packet;
      w.size := w.size + |packet|;
    }

    method PushData(packet: seq<Byte>)
      requires Valid() && packet != [] && Pushable(View(), packet)
      modifies this, ping, pong, ping.data, pong.data
      ensures Valid() && View() == PushedData(old(View()), packet)
    {
      PrepareSize(|packet|);
      CopyIn(packet);
    }

    /** The locked part of a flush. */
    method Fetch()
      requires Valid()
      modifies this`rFlag, temp, temp.data
      ensures Valid() && View() == Fetched(old(View()))
    {
      if rFlag {
        var r := Slots(rPos);
        temp.size := r.size;
        CopyBytes(temp.data, r.data, r.size);
        rFlag := false;
      }
    }

    method FlushToFile(file: MemoryFile, key: bool, maxDur: int) returns (result: int, measure: Option<Measure>)
      requires Valid() && file.Valid() && file.signed && file.bin != temp.data && file.bin != ping.data && file.bin != pong.data
      requires Readable(Fetched(View()).slots[TEMP])
      modifies this`rFlag, temp, temp.data, file, file.bin
      ensures Valid() && file.Valid() && file.signed
      ensures (View(), file.View(), result, measure) == Flushed(old(View()), old(file.View()), key, maxDur)
    {
      Fetch();
      var at: nat := 0;
      if key {
        var found := IFrameSearch(temp.data, 0, temp.size);
        if found.None? {
          return 0, None;
        }
        at := found.value;
      }
      assert StartOf(temp.View(), key) == Some(at);
      if temp.size <= at {
        return 0, None;
      }
      result, measure := WriteOut(file, at, maxDur);
    }

    /** Write the temporary buffer from position at on, and clear it. */
    method WriteOut(file: MemoryFile, at: nat, maxDur: int) returns (result: int, measure: Option<Measure>)
      requires Valid() && file.Valid() && file.signed && file.bin != temp.data && file.bin != ping.data && file.bin != pong.data
      requires at < temp.size && HeadersInside(temp.data[..], at, temp.size)
      modifies temp, file, file.bin
      ensures Valid() && file.Valid() && file.signed && View() == ClearedTemp(old(View()))
      ensures var chosen := Selected(old(temp.View()), at, maxDur);
              (file.View(), result) == WriteTo(old(file.View()), chosen.0) && measure == Some(chosen.1)
    {
      ghost var chosen := Selected(temp.View(), at, maxDur);
      var m := DurationGet(temp.data, at, temp.size - at, maxDur);
      assert temp.data[at..at + m.size] == chosen.0 && m == chosen.1;
      result := file.FWrite(temp.data[at..at + m.size], 1, m.size);
      measure := Some(m);
      temp.size := 0;
    }

    method ResetAll()
      requires Valid()
      modifies this`rFlag, ping, pong, temp
      ensures Valid() && View() == ResetBuffers(old(View()))
    {
      rFlag := true;
      ping.size := 0;
      pong.size := 0;
      temp.size := 0;
    }
  }
}
