/** Producer and consumer of the ping-pong buffers, interleaved step by step. The producer's preparation and reset and
    the consumer's copy to the temporary buffer hold the lock; the producer's copy into the write buffer, and the
    consumer's search, write and clearing, do not. */
module FlvHandover {
  import opened CInt
  import opened Options
  import opened Sequences
  import opened Memory
  import opened FlvTag
  import opened FlvParse
  import opened FlvBuffers

  datatype Producer = Idle | Copying(tag: Tag, done: nat)

  /** Where the consumer is in a flush; from is the packet found at position at. */
  datatype Consumer =
    | Away
    | Fetching(key: bool, maxDur: int)
    | Taking(key: bool, maxDur: int, i: nat)
    | Looking(key: bool, maxDur: int)
    | Located(at: nat, maxDur: int, from: nat)
    | Chosen(at: nat, size: int, key: bool, maxDur: int, from: nat)
    | Clearing(ok: bool, duration: int)
    | Back(ok: bool, reported: Option<int>)

  /** The buffers, both threads, and the history: the packets pushed, the range of them each buffer was filled with,
      and the indices of the packets written out. */
  datatype State = State(b: Three, producer: Producer, consumer: Consumer,
                         pushed: seq<Tag>, lo: seq<nat>, hi: seq<nat>, out: seq<nat>)

  function Capacity(s: State): nat {
    |s.b.slots[PING].data|
  }

  predicate RangeOk(s: State, i: nat)
    requires i < 3
  {
    |s.lo| == 3 && |s.hi| == 3 && s.lo[i] <= s.hi[i] <= |s.pushed|
  }

  predicate Shaped(s: State) {
    && |s.lo| == 3 && |s.hi| == 3
    && RangeOk(s, PING) && RangeOk(s, PONG) && RangeOk(s, TEMP)
    && |s.b.slots[PONG].data| == Capacity(s) && |s.b.slots[TEMP].data| == Capacity(s)
    && s.b.slots[PING].size <= Capacity(s) && s.b.slots[PONG].size <= Capacity(s) && s.b.slots[TEMP].size <= Capacity(s)
    && AllOk(s.pushed)
  }

  /** The packets buffer i was filled with last. */
  function Filled(s: State, i: nat): seq<Tag>
    requires i < 3 && RangeOk(s, i)
  {
    s.pushed[s.lo[i]..s.hi[i]]
  }

  /** A ping or pong buffer holds whole packets, in push order. */
  predicate Filling(s: State, i: nat)
    requires i < 2 && RangeOk(s, i)
  {
    Holds(s.b.slots[i].data, 0, s.b.slots[i].size, Filled(s, i))
  }

  /** The size of what was taken into the temporary buffer last. */
  function Full(s: State): nat
    requires RangeOk(s, TEMP)
  {
    |StreamBytes(Filled(s, TEMP))|
  }

  predicate WriterOk(s: State)
    requires Shaped(s)
  {
    && s.hi[s.b.wPos] == |s.pushed|
    && match s.producer
       case Idle => true
       case Copying(tag, done) =>
         var w := s.b.slots[s.b.wPos];
         && TagOk(tag) && done <= TagSize(tag) && w.size + TagSize(tag) <= |w.data|
         && w.data[w.size..w.size + done] == TagBytes(tag)[..done]
  }

  /** Bytes in the temporary buffer stay while the consumer is outside the lock, even if its size is reset. */
  predicate TempOk(s: State)
    requires Shaped(s)
  {
    var t, r := s.b.slots[TEMP], s.b.slots[s.b.rPos];
    if s.consumer.Taking? then
      && s.b.rFlag && s.consumer.i <= r.size == t.size
      && t.data[..s.consumer.i] == r.data[..s.consumer.i]
      && s.lo[TEMP] == s.lo[s.b.rPos] && s.hi[TEMP] == s.hi[s.b.rPos]
    else Holds(t.data, 0, Full(s), Filled(s, TEMP)) && (t.size == Full(s) || t.size == 0)
  }

  /** The consumer's position is the start of packet from, a key frame if one was asked for. */
  predicate AtPacket(s: State, at: nat, key: bool, from: nat)
    requires Shaped(s)
  {
    && s.lo[TEMP] <= from <= s.hi[TEMP]
    && Holds(s.b.slots[TEMP].data, at, Full(s), s.pushed[from..s.hi[TEMP]])
    && (key ==> from < s.hi[TEMP] && IsKey(s.pushed[from]))
  }

  predicate ReaderOk(s: State)
    requires Shaped(s)
  {
    match s.consumer
    case Located(at, _, from) => AtPacket(s, at, true, from)
    case Chosen(at, size, key, _, from) => AtPacket(s, at, key, from) && (if size > 0 then size == Full(s) - at else s.b.slots[TEMP].size == 0)
    case _ => true
  }

  /** Whether what was taken last can still be written out. */
  predicate Pending(s: State) {
    match s.consumer
    case Located(_, _, _) => true
    case Chosen(_, size, _, _, _) => size > 0
    case Clearing(_, _) => false
    case Taking(_, _, _) => true
    case _ => s.b.slots[TEMP].size != 0
  }

  predicate Increasing(xs: seq<nat>) {
    forall i, j :: 0 <= i < j < |xs| ==> xs[i] < xs[j]
  }

  /** Packets written out come before those taken last, these before those ready to be read, these before the ones in
      the write buffer. */
  predicate Ordered(s: State)
    requires Shaped(s)
  {
    && Increasing(s.out)
    && (forall i :: 0 <= i < |s.out| ==> s.out[i] < if Pending(s) then s.lo[TEMP] else s.hi[TEMP])
    && s.hi[s.b.rPos] <= s.lo[s.b.wPos]
    && s.hi[TEMP] <= s.lo[s.b.wPos]
    && (s.b.rFlag && !s.consumer.Taking? ==> s.hi[TEMP] <= s.lo[s.b.rPos])
  }

  predicate Inv(s: State) {
    && Shaped(s) && Filling(s, PING) && Filling(s, PONG)
    && WriterOk(s) && TempOk(s) && ReaderOk(s) && Ordered(s)
  }

  function Start(max: nat): State {
    State(NewBuffers(max), Idle, Away, [], [0, 0, 0], [0, 0, 0], [])
  }

  lemma StartIsOk(max: nat)
    ensures Inv(Start(max))
  {
  }

  // The producer's steps.

  /** Under the lock: prepare for a packet, which fits an empty buffer. */
  predicate CanPrepare(s: State, tag: Tag) {
    s.producer.Idle? && !s.consumer.Taking? && TagOk(tag) && TagSize(tag) <= Capacity(s)
  }

  function Prepare(s: State, tag: Tag): State
    requires Shaped(s) && Filling(s, s.b.wPos) && CanPrepare(s, tag)
  {
    WriteBufferReadable(s);
    var b, w, n := Prepared(s.b, TagSize(tag)), (s.b.wPos + 1) % 2, |s.pushed|;
    if MustSwitch(s.b.slots[s.b.wPos], TagSize(tag))
    then s.(b := b, producer := Copying(tag, 0), lo := s.lo[w := n], hi := s.hi[w := n])
    else s.(b := b, producer := Copying(tag, 0))
  }

  lemma WriteBufferReadable(s: State)
    requires Shaped(s) && Filling(s, s.b.wPos)
    ensures Readable(s.b.slots[s.b.wPos])
  {
    TagsAreReadable(s.b.slots[s.b.wPos].data, 0, s.b.slots[s.b.wPos].size, Filled(s, s.b.wPos));
  }

  /** What the consumer relies on stays true while its buffers stay the same, even if more packets are pushed. */
  lemma ConsumerUnmoved(s: State, t: State)
    requires Shaped(s) && TempOk(s) && ReaderOk(s) && Shaped(t) && s.pushed <= t.pushed && t.consumer == s.consumer
    requires t.lo[TEMP] == s.lo[TEMP] && t.hi[TEMP] == s.hi[TEMP] && t.b.slots[TEMP].data == s.b.slots[TEMP].data
    requires t.b.slots[TEMP].size == s.b.slots[TEMP].size || (t.b.slots[TEMP].size == 0 && !s.consumer.Taking?)
    requires s.consumer.Taking? ==>
               && t.b.rPos == s.b.rPos && t.b.rFlag && t.b.slots[t.b.rPos] == s.b.slots[s.b.rPos]
               && t.lo[t.b.rPos] == s.lo[s.b.rPos] && t.hi[t.b.rPos] == s.hi[s.b.rPos]
    ensures TempOk(t) && ReaderOk(t)
  {
    SameRange(s, t, TEMP);
    var from := match s.consumer case Located(_, _, f) => f case Chosen(_, _, _, _, f) => f case _ => s.lo[TEMP];
    if s.lo[TEMP] <= from <= s.hi[TEMP] {
      assert t.pushed[..|s.pushed|] == s.pushed;
      assert t.pushed[..|s.pushed|][from..s.hi[TEMP]] == t.pushed[from..s.hi[TEMP]];
    }
  }

  lemma StayKeeps(s: State, tag: Tag)
    requires Inv(s) && CanPrepare(s, tag) && s.b.slots[s.b.wPos].size + TagSize(tag) <= Capacity(s)
    ensures Inv(s.(producer := Copying(tag, 0)))
  {
    var w := s.b.slots[s.b.wPos];
    assert w.data[w.size..w.size + 0] == [] == TagBytes(tag)[..0];
  }

  /** Handing the write buffer over and going on in the other one. */
  function Switched(s: State): State
    requires Shaped(s)
  {
    var w, n := (s.b.wPos + 1) % 2, |s.pushed|;
    s.(b := Resized(s.b.(rFlag := true, rPos := s.b.wPos, wPos := w, ready := true), w, 0),
       lo := s.lo[w := n], hi := s.hi[w := n])
  }

  lemma SwitchKeeps(s: State)
    requires Inv(s) && s.producer.Idle? && !s.consumer.Taking?
    ensures Inv(Switched(s))
  {
    var t := Switched(s);
    assert Filled(t, t.b.wPos) == [] && t.b.slots[t.b.wPos].data[0..0] == [];
    SameRange(s, t, s.b.wPos);
    ConsumerUnmoved(s, t);
  }

  lemma PrepareKeeps(s: State, tag: Tag)
    requires Inv(s) && CanPrepare(s, tag)
    ensures Inv(Prepare(s, tag))
  {
    WriteBufferReadable(s);
    if MustSwitch(s.b.slots[s.b.wPos], TagSize(tag)) {
      SwitchKeeps(s);
      StayKeeps(Switched(s), tag);
    } else {
      StayKeeps(s, tag);
    }
  }

  /** Outside the lock: copy one byte behind the data of the write buffer. */
  predicate CanCopy(s: State) {
    s.producer.Copying? && s.producer.done < TagSize(s.producer.tag)
  }

  function CopyByte(s: State): State
    requires Shaped(s) && WriterOk(s) && CanCopy(s)
  {
    var tag, i := s.producer.tag, s.producer.done;
    s.(b := PutByte(s.b, i, TagBytes(tag)[i]), producer := Copying(tag, i + 1))
  }

  lemma HoldsElsewhere(mem: seq<Byte>, other: seq<Byte>, p: nat, end: nat, tags: seq<Tag>)
    requires Holds(mem, p, end, tags) && |other| >= end && other[..end] == mem[..end]
    ensures Holds(other, p, end, tags)
  {
    assert other[p..end] == other[..end][p..] == mem[..end][p..] == mem[p..end];
  }

  /** Outside the lock: count the copied packet as data. */
  predicate CanPublish(s: State) {
    s.producer.Copying? && s.producer.done == TagSize(s.producer.tag)
  }

  function Publish(s: State): State
    requires Shaped(s) && CanPublish(s)
  {
    var n := |s.pushed| + 1;
    s.(b := Published(s.b, TagSize(s.producer.tag)), producer := Idle,
       pushed := s.pushed + [s.producer.tag], hi := s.hi[s.b.wPos := n])
  }

  lemma OneMore(mem: seq<Byte>, n: nat, tags: seq<Tag>, tag: Tag)
    requires Holds(mem, 0, n, tags) && TagOk(tag)
    requires n + TagSize(tag) <= |mem| && mem[n..n + TagSize(tag)] == TagBytes(tag)
    ensures Holds(mem, 0, n + TagSize(tag), tags + [tag])
  {
    StreamConcat(tags, [tag]);
    StreamOne(tag);
    assert mem[0..n + TagSize(tag)] == mem[0..n] + mem[n..n + TagSize(tag)];
  }

  lemma SameRange(s: State, t: State, i: nat)
    requires i < 3 && RangeOk(s, i) && |t.lo| == 3 && |t.hi| == 3 && t.lo[i] == s.lo[i] && t.hi[i] == s.hi[i]
    requires s.pushed <= t.pushed
    ensures RangeOk(t, i) && Filled(t, i) == Filled(s, i)
  {
    assert t.pushed[..|s.pushed|] == s.pushed;
    assert t.pushed[..|s.pushed|][s.lo[i]..s.hi[i]] == t.pushed[s.lo[i]..s.hi[i]];
  }

  lemma OneByteMore(mem: seq<Byte>, n: nat, bytes: seq<Byte>, i: nat)
    requires i < |bytes| && n + |bytes| <= |mem| && mem[n..n + i] == bytes[..i]
    ensures var after := mem[n + i := bytes[i]];
            after[..n] == mem[..n] && after[n..n + i + 1] == bytes[..i + 1]
  {
    assert bytes[..i + 1] == bytes[..i] + [bytes[i]];
    assert mem[n + i := bytes[i]][n..n + i + 1] == mem[n..n + i] + [bytes[i]];
  }

  lemma CopyByteAddsOne(s: State)
    requires Shaped(s) && WriterOk(s) && CanCopy(s)
    ensures Shaped(CopyByte(s)) && WriterOk(CopyByte(s))
    ensures var before, after := s.b.slots[s.b.wPos], CopyByte(s).b.slots[s.b.wPos];
            after.size == before.size && after.data[..before.size] == before.data[..before.size]
  {
    var slot := s.b.slots[s.b.wPos];
    OneByteMore(slot.data, slot.size, TagBytes(s.producer.tag), s.producer.done);
  }

  lemma CopyByteKeepsWriter(s: State)
    requires Inv(s) && CanCopy(s)
    ensures Shaped(CopyByte(s)) && Filling(CopyByte(s), s.b.wPos) && WriterOk(CopyByte(s))
  {
    var t, w := CopyByte(s), s.b.wPos;
    CopyByteAddsOne(s);
    SameRange(s, t, w);
    HoldsElsewhere(s.b.slots[w].data, t.b.slots[w].data, 0, s.b.slots[w].size, Filled(s, w));
  }

  lemma CopyByteKeeps(s: State)
    requires Inv(s) && CanCopy(s)
    ensures Inv(CopyByte(s))
  {
    var t := CopyByte(s);
    CopyByteKeepsWriter(s);
    SameRange(s, t, s.b.rPos);
    ConsumerUnmoved(s, t);
  }

  lemma RangeGrows(pushed: seq<Tag>, lo: nat, tag: Tag)
    requires lo <= |pushed|
    ensures (pushed + [tag])[lo..|pushed| + 1] == pushed[lo..|pushed|] + [tag]
  {
  }

  lemma PublishShape(s: State)
    requires Shaped(s) && WriterOk(s) && CanPublish(s)
    ensures Shaped(Publish(s))
    ensures Filled(Publish(s), s.b.wPos) == Filled(s, s.b.wPos) + [s.producer.tag]
  {
    RangeGrows(s.pushed, s.lo[s.b.wPos], s.producer.tag);
  }

  lemma PublishKeepsWriter(s: State)
    requires Inv(s) && CanPublish(s)
    ensures Shaped(Publish(s)) && Filling(Publish(s), s.b.wPos) && WriterOk(Publish(s))
  {
    var w, tag := s.b.slots[s.b.wPos], s.producer.tag;
    assert TagBytes(tag)[..TagSize(tag)] == TagBytes(tag);
    OneMore(w.data, w.size, Filled(s, s.b.wPos), tag);
    PublishShape(s);
  }

  lemma PublishKeeps(s: State)
    requires Inv(s) && CanPublish(s)
    ensures Inv(Publish(s))
  {
    PublishKeepsWriter(s);
    SameRange(s, Publish(s), s.b.rPos);
    ConsumerUnmoved(s, Publish(s));
  }

  /** Under the lock: drop everything, when the time stamps have started anew. */
  predicate CanReset(s: State) {
    s.producer.Idle? && !s.consumer.Taking?
  }

  function Reset(s: State): State
    requires Shaped(s) && CanReset(s)
  {
    var n := |s.pushed|;
    s.(b := ResetBuffers(s.b), lo := s.lo[PING := n][PONG := n], hi := s.hi[PING := n][PONG := n])
  }

  lemma ResetKeeps(s: State)
    requires Inv(s) && CanReset(s)
    ensures Inv(Reset(s))
  {
    var t := Reset(s);
    assert Filled(t, PING) == [] && Filled(t, PONG) == [];
    ConsumerUnmoved(s, t);
  }

  // The consumer's steps.

  /** A flush begins once a buffer has been handed over. */
  predicate CanCall(s: State) {
    s.consumer.Away? && s.b.ready
  }

  function Call(s: State, key: bool, maxDur: int): State {
    s.(consumer := Fetching(key, maxDur))
  }

  /** Take the lock; if a buffer is ready to be read, begin to copy it. */
  function Lock(s: State): State
    requires Shaped(s) && s.consumer.Fetching?
  {
    var key, maxDur, r := s.consumer.key, s.consumer.maxDur, s.b.rPos;
    if s.b.rFlag
    then s.(b := Resized(s.b, TEMP, s.b.slots[r].size), consumer := Taking(key, maxDur, 0),
            lo := s.lo[TEMP := s.lo[r]], hi := s.hi[TEMP := s.hi[r]])
    else s.(consumer := Looking(key, maxDur))
  }

  lemma LockKeeps(s: State)
    requires Inv(s) && s.consumer.Fetching?
    ensures Inv(Lock(s))
  {
    var t := Lock(s);
    SameRange(s, t, PING);
    SameRange(s, t, PONG);
  }

  /** Under the lock: copy one byte from the read buffer to the temporary buffer. */
  predicate CanTake(s: State) {
    s.consumer.Taking? && s.consumer.i < s.b.slots[s.b.rPos].size
  }

  function TakeByte(s: State): State
    requires Shaped(s) && TempOk(s) && CanTake(s)
  {
    var i, r, t := s.consumer.i, s.b.slots[s.b.rPos], s.b.slots[TEMP];
    s.(b := s.b.(slots := s.b.slots[TEMP := t.(data := t.data[i := r.data[i]])]), consumer := s.consumer.(i := i + 1))
  }

  lemma TakeByteKeeps(s: State)
    requires Inv(s) && CanTake(s)
    ensures Inv(TakeByte(s))
  {
    var t, i := TakeByte(s), s.consumer.i;
    SameRange(s, t, PING);
    SameRange(s, t, PONG);
    var r := s.b.slots[s.b.rPos].data;
    assert t.b.slots[TEMP].data[..i + 1] == s.b.slots[TEMP].data[..i] + [r[i]] == r[..i + 1];
  }

  /** The copy is complete: the buffer has been read; release the lock. */
  predicate CanUnlock(s: State) {
    s.consumer.Taking? && s.consumer.i == s.b.slots[s.b.rPos].size
  }

  function Unlock(s: State): State
    requires CanUnlock(s)
  {
    s.(b := s.b.(rFlag := false), consumer := Looking(s.consumer.key, s.consumer.maxDur))
  }

  lemma UnlockKeeps(s: State)
    requires Inv(s) && CanUnlock(s)
    ensures Inv(Unlock(s))
  {
    var t, r := Unlock(s), s.b.slots[s.b.rPos];
    SameRange(s, t, PING);
    SameRange(s, t, PONG);
    SameRange(s, t, TEMP);
    HoldsElsewhere(r.data, s.b.slots[TEMP].data, 0, r.size, Filled(s, s.b.rPos));
  }

  /** Outside the lock: find where to start, in what the size says is there. */
  function Look(s: State): State
    requires Shaped(s) && TempOk(s) && s.consumer.Looking?
  {
    TempReadable(s);
    var key, maxDur, t := s.consumer.key, s.consumer.maxDur, s.b.slots[TEMP];
    if !key then s.(consumer := Chosen(0, t.size, false, maxDur, s.lo[TEMP]))
    else
      match SearchKey(t.data, 0, t.size)
      case None => s.(consumer := Back(true, None))
      case Some(at) => s.(consumer := Located(at, maxDur, s.lo[TEMP] + KeyIndex(Filled(s, TEMP))))
  }

  lemma TempReadable(s: State)
    requires Shaped(s) && TempOk(s) && s.consumer.Looking?
    ensures Readable(s.b.slots[TEMP])
  {
    TagsAreReadable(s.b.slots[TEMP].data, 0, Full(s), Filled(s, TEMP));
  }

  lemma {:induction false} SpanIsSize(mem: seq<Byte>, p: nat, q: nat)
    requires q <= |mem| && Whole(mem, p, q)
    ensures p <= q && |StreamBytes(TagsIn(mem, p, q))| == q - p
    decreases q - p
  {
    if p < q {
      SpanIsSize(mem, NextTag(mem, p), q);
    }
  }

  /** The search on whole packets finds the first key-frame packet, where the rest of the packets begin. */
  lemma SearchOfTags(mem: seq<Byte>, end: nat, tags: seq<Tag>)
    requires Holds(mem, 0, end, tags)
    ensures HeadersInside(mem, 0, end)
    ensures var at, k := SearchKey(mem, 0, end), KeyIndex(tags);
            if k == |tags| then at == None
            else at.Some? && Holds(mem, at.value, end, tags[k..]) && IsKey(tags[k])
  {
    TagsComeBack(mem, 0, end, tags);
    SearchFindsFirstKey(mem, 0, end);
    var at, k := SearchKey(mem, 0, end), KeyIndex(tags);
    if k < |tags| {
      SpanIsSize(mem, 0, at.value);
      StreamConcat(tags[..k], tags[k..]);
      assert tags[..k] + tags[k..] == tags;
      assert mem[at.value..end] == mem[0..end][at.value..];
    }
  }

  lemma SearchOfRange(mem: seq<Byte>, end: nat, pushed: seq<Tag>, lo: nat, hi: nat)
    requires lo <= hi <= |pushed| && Holds(mem, 0, end, pushed[lo..hi])
    ensures HeadersInside(mem, 0, end)
    ensures var at, from := SearchKey(mem, 0, end), lo + KeyIndex(pushed[lo..hi]);
            at.Some? ==> from < hi && Holds(mem, at.value, end, pushed[from..hi]) && IsKey(pushed[from])
  {
    var tags := pushed[lo..hi];
    SearchOfTags(mem, end, tags);
    if KeyIndex(tags) < |tags| {
      assert pushed[lo + KeyIndex(tags)..hi] == tags[KeyIndex(tags)..];
    }
  }

  lemma LookFindsKey(s: State)
    requires Shaped(s) && TempOk(s) && s.consumer.Looking? && s.consumer.key && s.b.slots[TEMP].size != 0
    ensures var c := Look(s).consumer;
            Look(s) == s.(consumer := c) && (c.Back? || (c.Located? && AtPacket(s, c.at, true, c.from)))
  {
    SearchOfRange(s.b.slots[TEMP].data, Full(s), s.pushed, s.lo[TEMP], s.hi[TEMP]);
  }

  lemma LocatedAtPacket(s: State, at: nat, maxDur: int, from: nat)
    requires Shaped(s) && AtPacket(s, at, true, from)
    ensures var t := s.(consumer := Located(at, maxDur, from)); Shaped(t) && ReaderOk(t)
  {
  }

  lemma LookFinds(s: State)
    requires Shaped(s) && TempOk(s) && s.consumer.Looking?
    ensures Shaped(Look(s)) && ReaderOk(Look(s)) && (Look(s).consumer.Located? ==> s.b.slots[TEMP].size != 0)
  {
    if s.consumer.key && s.b.slots[TEMP].size != 0 {
      LookFindsKey(s);
      var c := Look(s).consumer;
      if c.Located? {
        LocatedAtPacket(s, c.at, c.maxDur, c.from);
      }
    }
  }

  lemma LookKeeps(s: State)
    requires Inv(s) && s.consumer.Looking?
    ensures Inv(Look(s))
  {
    RestKept(s, Look(s));
    LookFinds(s);
  }

  /** The size of the data is read once more after the search. */
  function Locate(s: State): State
    requires s.consumer.Located?
  {
    var c := s.consumer;
    s.(consumer := Chosen(c.at, s.b.slots[TEMP].size - c.at, true, c.maxDur, c.from))
  }

  lemma LocateKeeps(s: State)
    requires Inv(s) && s.consumer.Located?
    ensures Inv(Locate(s))
  {
    RestKept(s, Locate(s));
  }

  function Indices(a: nat, b: nat): (r: seq<nat>)
    ensures a <= b ==> |r| == b - a && forall i :: 0 <= i < b - a ==> r[i] == a + i
    decreases b - a
  {
    if a < b then [a] + Indices(a + 1, b) else []
  }

  predicate CanWrite(s: State) {
    s.consumer.Chosen? && s.consumer.size > 0
  }

  lemma WholeIsMeasuredWhole(mem: seq<Byte>, p: nat, end: nat, maxDur: int, tags: seq<Tag>)
    requires Holds(mem, p, end, tags) && p < end
    ensures tags != [] && HeadersInside(mem, p, end) && MeasureFrom(mem, p, end - p, maxDur).size == end - p
  {
    TagsComeBack(mem, p, end, tags);
    MeasureOfTags(mem, p, end, maxDur);
  }

  lemma ChosenIsWhole(s: State)
    requires Shaped(s) && ReaderOk(s) && CanWrite(s)
    ensures var c, mem := s.consumer, s.b.slots[TEMP].data;
            && HeadersInside(mem, c.at, c.at + c.size) && c.from < s.hi[TEMP]
            && MeasureFrom(mem, c.at, c.size, c.maxDur).size == c.size
            && c.at + c.size <= |mem| && mem[c.at..c.at + c.size] == StreamBytes(s.pushed[c.from..s.hi[TEMP]])
  {
    var c := s.consumer;
    WholeIsMeasuredWhole(s.b.slots[TEMP].data, c.at, Full(s), c.maxDur, s.pushed[c.from..s.hi[TEMP]]);
  }

  lemma ChosenIsReadable(s: State)
    requires Shaped(s) && ReaderOk(s) && CanWrite(s)
    ensures HeadersInside(s.b.slots[TEMP].data, s.consumer.at, s.consumer.at + s.consumer.size)
  {
    ChosenIsWhole(s);
  }

  /** The bytes given to the file, and what is measured about them. */
  function Written(s: State): (seq<Byte>, Measure)
    requires Shaped(s) && ReaderOk(s) && CanWrite(s)
  {
    ChosenIsReadable(s);
    MeasuredPart(s.b.slots[TEMP].data, s.consumer.at, s.consumer.size, s.consumer.maxDur)
  }

  /** What the file takes is whole packets as they were pushed, from the first key frame taken if one was asked for. */
  lemma WrittenIsPackets(s: State)
    requires Shaped(s) && ReaderOk(s) && CanWrite(s)
    ensures var c := s.consumer;
            && c.from < s.hi[TEMP] <= |s.pushed|
            && Written(s).0 == StreamBytes(s.pushed[c.from..s.hi[TEMP]])
            && (c.key ==> IsKey(s.pushed[c.from]))
  {
    ChosenIsWhole(s);
  }

  /** What is reported of them is the time from the first packet to the last, or to the first that reaches the limit. */
  lemma ReportedDuration(s: State, k: nat)
    requires Shaped(s) && ReaderOk(s) && CanWrite(s)
    ensures var c, tags := s.consumer, s.pushed[s.consumer.from..s.hi[TEMP]];
            && tags != []
            && (c.maxDur <= 0 ==> Written(s).1.duration == Recorded(tags))
            && (c.maxDur > 0 && k < |tags| && FlvParse.Reaches(tags, tags[0].stamp, c.maxDur, k) ==>
                  Written(s).1.duration == Recorded(tags[..k + 1]))
  {
    var c, tags := s.consumer, s.pushed[s.consumer.from..s.hi[TEMP]];
    ChosenIsWhole(s);
    if c.maxDur <= 0 {
      WholeDuration(s.b.slots[TEMP].data, c.at, Full(s), tags, c.maxDur);
    } else if k < |tags| && FlvParse.Reaches(tags, tags[0].stamp, c.maxDur, k) {
      LimitedDuration(s.b.slots[TEMP].data, c.at, Full(s), tags, c.maxDur, k);
    }
  }

  /** Outside the lock: the file accepts the bytes, or refuses them all. */
  function Write(s: State, ok: bool): State
    requires Shaped(s) && ReaderOk(s) && CanWrite(s)
  {
    var c := s.consumer;
    var out := if ok then s.out + Indices(c.from, s.hi[TEMP]) else s.out;
    s.(consumer := Clearing(ok, Written(s).1.duration), out := out)
  }

  lemma WriteKeeps(s: State, ok: bool)
    requires Inv(s) && CanWrite(s)
    ensures Inv(Write(s, ok))
  {
    RestKept(s, Write(s, ok));
  }

  /** Nothing to write. */
  predicate CanGiveUp(s: State) {
    s.consumer.Chosen? && s.consumer.size <= 0
  }

  function GiveUp(s: State): State {
    s.(consumer := Back(true, None))
  }

  /** Outside the lock: what was written is not needed any more. */
  function Clear(s: State): State
    requires s.consumer.Clearing?
  {
    s.(b := ClearedTemp(s.b), consumer := Back(s.consumer.ok, Some(s.consumer.duration)))
  }

  function Return(s: State): State {
    s.(consumer := Away)
  }

  /** A step that only moves the consumer on, or clears the temporary buffer, leaves the rest as it was. */
  lemma RestKept(s: State, t: State)
    requires Inv(s) && t.producer == s.producer && t.pushed == s.pushed && t.lo == s.lo && t.hi == s.hi
    requires t.b == s.b || t.b == ClearedTemp(s.b)
    ensures Shaped(t) && Filling(t, PING) && Filling(t, PONG) && WriterOk(t) && Filled(t, TEMP) == Filled(s, TEMP)
  {
    SameRange(s, t, PING);
    SameRange(s, t, PONG);
    SameRange(s, t, TEMP);
  }

  lemma CallKeeps(s: State, key: bool, maxDur: int)
    requires Inv(s) && CanCall(s)
    ensures Inv(Call(s, key, maxDur))
  {
    RestKept(s, Call(s, key, maxDur));
  }

  lemma GiveUpKeeps(s: State)
    requires Inv(s) && CanGiveUp(s)
    ensures Inv(GiveUp(s))
  {
    RestKept(s, GiveUp(s));
  }

  lemma ClearKeeps(s: State)
    requires Inv(s) && s.consumer.Clearing?
    ensures Inv(Clear(s))
  {
    RestKept(s, Clear(s));
  }

  lemma ReturnKeeps(s: State)
    requires Inv(s) && s.consumer.Back?
    ensures Inv(Return(s))
  {
    RestKept(s, Return(s));
  }

  // Runs.

  datatype Step =
    | DoPrepare(tag: Tag) | DoCopyByte | DoPublish | DoReset
    | DoCall(key: bool, maxDur: int) | DoLock | DoTakeByte | DoUnlock | DoLook | DoLocate
    | DoWrite(ok: bool) | DoGiveUp | DoClear | DoReturn

  predicate Enabled(s: State, a: Step) {
    match a
    case DoPrepare(tag) => CanPrepare(s, tag)
    case DoCopyByte => CanCopy(s)
    case DoPublish => CanPublish(s)
    case DoReset => CanReset(s)
    case DoCall(_, _) => CanCall(s)
    case DoLock => s.consumer.Fetching?
    case DoTakeByte => CanTake(s)
    case DoUnlock => CanUnlock(s)
    case DoLook => s.consumer.Looking?
    case DoLocate => s.consumer.Located?
    case DoWrite(_) => CanWrite(s)
    case DoGiveUp => CanGiveUp(s)
    case DoClear => s.consumer.Clearing?
    case DoReturn => s.consumer.Back?
  }

  function Apply(s: State, a: Step): State
    requires Inv(s) && Enabled(s, a)
  {
    match a
    case DoPrepare(tag) => Prepare(s, tag)
    case DoCopyByte => CopyByte(s)
    case DoPublish => Publish(s)
    case DoReset => Reset(s)
    case DoCall(key, maxDur) => Call(s, key, maxDur)
    case DoLock => Lock(s)
    case DoTakeByte => TakeByte(s)
    case DoUnlock => Unlock(s)
    case DoLook => Look(s)
    case DoLocate => Locate(s)
    case DoWrite(ok) => Write(s, ok)
    case DoGiveUp => GiveUp(s)
    case DoClear => Clear(s)
    case DoReturn => Return(s)
  }

  /** Every step of either thread, in any order, keeps the invariant. */
  lemma StepKeeps(s: State, a: Step)
    requires Inv(s) && Enabled(s, a)
    ensures Inv(Apply(s, a))
  {
    match a
    case DoPrepare(tag) => PrepareKeeps(s, tag);
    case DoCopyByte => CopyByteKeeps(s);
    case DoPublish => PublishKeeps(s);
    case DoReset => ResetKeeps(s);
    case DoCall(key, maxDur) => CallKeeps(s, key, maxDur);
    case DoLock => LockKeeps(s);
    case DoTakeByte => TakeByteKeeps(s);
    case DoUnlock => UnlockKeeps(s);
    case DoLook => LookKeeps(s);
    case DoLocate => LocateKeeps(s);
    case DoWrite(ok) => WriteKeeps(s, ok);
    case DoGiveUp => GiveUpKeeps(s);
    case DoClear => ClearKeeps(s);
    case DoReturn => ReturnKeeps(s);
  }

  type Reached = s: State | Inv(s) witness (StartIsOk(0); Start(0))

  function Take(s: Reached, a: Step): Reached
    requires Enabled(s, a)
  {
    StepKeeps(s, a);
    Apply(s, a)
  }

  /** The state after a run; none if some step was not possible. */
  function After(s: Reached, steps: seq<Step>): Option<Reached> {
    if steps == [] then Some(s)
    else
      var last := |steps| - 1;
      match After(s, steps[..last])
      case None => None
      case Some(m) => if Enabled(m, steps[last]) then Some(Take(m, steps[last])) else None
  }

  predicate ByProducer(a: Step) {
    a.DoPrepare? || a.DoCopyByte? || a.DoPublish? || a.DoReset?
  }

  /** The threads never meet outside the lock: the producer leaves the consumer's position and the bytes of the
      temporary buffer alone, and the buffer being read while it is copied; the consumer leaves both others' bytes and
      the choice of the write buffer alone. The write buffer is never the one to read. */
  lemma ThreadsDoNotMeet(s: State, a: Step)
    requires Inv(s) && Enabled(s, a)
    ensures s.b.wPos != s.b.rPos
    ensures var t := Apply(s, a);
            if ByProducer(a) then
              && t.consumer == s.consumer && t.b.slots[TEMP].data == s.b.slots[TEMP].data
              && (s.consumer.Taking? ==> t.b.rPos == s.b.rPos && t.b.slots[t.b.rPos] == s.b.slots[s.b.rPos]
                                         && t.b.slots[TEMP] == s.b.slots[TEMP] && t.b.rFlag == s.b.rFlag)
            else
              && t.producer == s.producer && t.pushed == s.pushed
              && t.b.wPos == s.b.wPos && t.b.rPos == s.b.rPos
              && t.b.slots[PING] == s.b.slots[PING] && t.b.slots[PONG] == s.b.slots[PONG]
  {
    if a.DoPrepare? {
      WriteBufferReadable(s);
    }
  }
}
