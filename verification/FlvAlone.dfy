/** Without interference, the steps of each thread make up the calls of the buffer object. */
module FlvAlone {
  import opened CInt
  import opened Options
  import opened Memory
  import opened MemFile
  import opened FlvTag
  import opened FlvParse
  import opened FlvBuffers
  import opened FlvHandover

  /** Copy what is left of the packet and publish it. */
  function FinishCopy(s: Reached): State
    requires s.producer.Copying?
    decreases TagSize(s.producer.tag) - s.producer.done
  {
    if CanCopy(s) then
      CopyByteKeeps(s);
      FinishCopy(CopyByte(s))
    else Publish(s)
  }

  lemma OverwriteAgain(mem: seq<Byte>, at: nat, bytes: seq<Byte>, i: nat)
    requires at + |bytes| <= |mem| && i < |bytes|
    ensures Overwrite(mem[at + i := bytes[i]], at, bytes) == Overwrite(mem, at, bytes)
  {
  }

  lemma OverwriteSame(mem: seq<Byte>, at: nat, bytes: seq<Byte>)
    requires at + |bytes| <= |mem| && mem[at..at + |bytes|] == bytes
    ensures Overwrite(mem, at, bytes) == mem
  {
    assert mem == mem[..at] + mem[at..at + |bytes|] + mem[at + |bytes|..];
  }

  lemma PutAgain(b: Three, bytes: seq<Byte>, i: nat)
    requires b.slots[b.wPos].size + |bytes| <= |b.slots[b.wPos].data| && i < |bytes|
    ensures PutBytes(PutByte(b, i, bytes[i]), bytes, |bytes|) == PutBytes(b, bytes, |bytes|)
  {
    var s := b.slots[b.wPos];
    assert bytes[..|bytes|] == bytes;
    OverwriteAgain(s.data, s.size, bytes, i);
    var put := s.(data := s.data[s.size + i := bytes[i]]);
    assert b.slots[b.wPos := put][b.wPos := s.(data := Overwrite(put.data, s.size, bytes))]
        == b.slots[b.wPos := s.(data := Overwrite(s.data, s.size, bytes))];
  }

  lemma {:induction false} FinishCopyPuts(s: Reached)
    requires s.producer.Copying?
    ensures var bytes, w := TagBytes(s.producer.tag), s.b.slots[s.b.wPos];
            && w.size + |bytes| <= |w.data|
            && FinishCopy(s).b == Published(PutBytes(s.b, bytes, |bytes|), |bytes|)
    decreases TagSize(s.producer.tag) - s.producer.done
  {
    var bytes, w := TagBytes(s.producer.tag), s.b.slots[s.b.wPos];
    if CanCopy(s) {
      CopyByteKeeps(s);
      FinishCopyPuts(CopyByte(s));
      PutAgain(s.b, bytes, s.producer.done);
    } else {
      assert bytes[..|bytes|] == bytes;
      OverwriteSame(w.data, w.size, bytes);
      assert s.b.slots[s.b.wPos := w] == s.b.slots;
    }
  }

  /** Preparing, copying and publishing a packet is the call that pushes it. */
  lemma PushIsItsSteps(s: Reached, tag: Tag)
    requires CanPrepare(s, tag)
    ensures Inv(Prepare(s, tag)) && Pushable(s.b, TagBytes(tag))
    ensures FinishCopy(Prepare(s, tag)).b == PushedData(s.b, TagBytes(tag))
  {
    WriteBufferReadable(s);
    PrepareKeeps(s, tag);
    FinishCopyPuts(Prepare(s, tag));
  }

  /** Copy what is left of the read buffer and release the lock. */
  function FinishTake(s: Reached): State
    requires s.consumer.Taking?
    decreases s.b.slots[s.b.rPos].size - s.consumer.i
  {
    if CanTake(s) then
      TakeByteKeeps(s);
      FinishTake(TakeByte(s))
    else Unlock(s)
  }

  /** The buffers once the read buffer is in the temporary one. */
  function Taken(b: Three): Three
    requires b.slots[b.rPos].size <= |b.slots[b.rPos].data| && b.slots[b.rPos].size <= |b.slots[TEMP].data|
  {
    var r, t := b.slots[b.rPos], b.slots[TEMP];
    b.(slots := b.slots[TEMP := t.(data := Overwrite(t.data, 0, r.data[..r.size]))], rFlag := false)
  }

  lemma TakeAgain(b: Three, i: nat)
    requires b.slots[b.rPos].size <= |b.slots[b.rPos].data| && b.slots[b.rPos].size <= |b.slots[TEMP].data|
    requires i < b.slots[b.rPos].size
    ensures var t := b.slots[TEMP];
            Taken(b.(slots := b.slots[TEMP := t.(data := t.data[i := b.slots[b.rPos].data[i]])])) == Taken(b)
  {
    var r, t := b.slots[b.rPos], b.slots[TEMP];
    var bytes := r.data[..r.size];
    OverwriteAgain(t.data, 0, bytes, i);
    var put := t.(data := t.data[i := bytes[i]]);
    assert b.slots[TEMP := put][TEMP := t.(data := Overwrite(put.data, 0, bytes))]
        == b.slots[TEMP := t.(data := Overwrite(t.data, 0, bytes))];
  }

  lemma {:induction false} FinishTakeCopies(s: Reached)
    requires s.consumer.Taking?
    ensures FinishTake(s).b == Taken(s.b)
    decreases s.b.slots[s.b.rPos].size - s.consumer.i
  {
    if CanTake(s) {
      TakeByteKeeps(s);
      FinishTakeCopies(TakeByte(s));
      TakeAgain(s.b, s.consumer.i);
    } else {
      var r, t := s.b.slots[s.b.rPos], s.b.slots[TEMP];
      OverwriteSame(t.data, 0, r.data[..r.size]);
      assert s.b.slots[TEMP := t] == s.b.slots;
    }
  }

  /** Taking the lock, copying and releasing it is the locked part of a flush. */
  lemma FetchIsItsSteps(s: Reached)
    requires s.consumer.Fetching?
    ensures Inv(Lock(s))
    ensures (if s.b.rFlag then FinishTake(Lock(s)) else Lock(s)).b == Fetched(s.b)
  {
    LockKeeps(s);
    if s.b.rFlag {
      FinishTakeCopies(Lock(s));
    }
  }

  /** The search and the second look at the size, with nothing in between. */
  function Choice(s: State): State
    requires Shaped(s) && TempOk(s) && s.consumer.Looking?
  {
    if Look(s).consumer.Located? then Locate(Look(s)) else Look(s)
  }

  lemma ChoiceKeeps(s: Reached)
    requires s.consumer.Looking?
    ensures Inv(Choice(s))
  {
    LookKeeps(s);
    if Look(s).consumer.Located? {
      LocateKeeps(Look(s));
    }
  }

  lemma ChoiceIsStart(s: State)
    requires Shaped(s) && TempOk(s) && s.consumer.Looking?
    ensures Readable(s.b.slots[TEMP]) && Choice(s).b == s.b
    ensures var at, c := StartOf(s.b.slots[TEMP], s.consumer.key), Choice(s).consumer;
            if at.None? then c.Back?
            else c.Chosen? && c.at == at.value && c.size == s.b.slots[TEMP].size - c.at && c.maxDur == s.consumer.maxDur
  {
    TempReadable(s);
  }

  /** Write what was chosen and clear, or give up. */
  function Ended(c: State, ok: bool): (State, Option<seq<Byte>>)
    requires Shaped(c) && ReaderOk(c)
  {
    if CanWrite(c) then (Clear(Write(c, ok)), Some(Written(c).0))
    else if CanGiveUp(c) then (GiveUp(c), None) else (c, None)
  }

  lemma EndedIsSelected(c: State, ok: bool)
    requires Shaped(c) && ReaderOk(c) && CanWrite(c) && c.consumer.size == c.b.slots[TEMP].size - c.consumer.at
    ensures HeadersInside(c.b.slots[TEMP].data, c.consumer.at, c.b.slots[TEMP].size)
    ensures Ended(c, ok).0.b == ClearedTemp(c.b)
    ensures Ended(c, ok).1 == Some(Selected(c.b.slots[TEMP], c.consumer.at, c.consumer.maxDur).0)
  {
    ChosenIsReadable(c);
  }

  /** The unlocked part of a flush with nothing in between: the state at its end, and the bytes it wrote. */
  function FinishFlush(s: Reached, ok: bool): (State, Option<seq<Byte>>)
    requires s.consumer.Looking?
  {
    ChoiceKeeps(s);
    Ended(Choice(s), ok)
  }

  /** The steps choose what the call chooses. */
  lemma FlushChoice(s: Reached, ok: bool)
    requires s.consumer.Looking? && Readable(s.b.slots[TEMP])
    ensures var t, at, r := s.b.slots[TEMP], StartOf(s.b.slots[TEMP], s.consumer.key), FinishFlush(s, ok);
            if at.None? || t.size <= at.value then r.1 == None && r.0.b == s.b
            else r.1 == Some(Selected(t, at.value, s.consumer.maxDur).0) && r.0.b == ClearedTemp(s.b)
  {
    ChoiceIsStart(s);
    ChoiceKeeps(s);
    if CanWrite(Choice(s)) {
      EndedIsSelected(Choice(s), ok);
    }
  }

  lemma NothingToFetch(s: Reached)
    requires s.consumer.Looking? && !s.b.rFlag
    ensures Fetched(s.b) == s.b && Readable(Fetched(s.b).slots[TEMP])
  {
    TempReadable(s);
  }

  /** And with the locked part done, it is the call that flushes to the file. */
  lemma FlushIsItsSteps(s: Reached, f: File)
    requires s.consumer.Looking? && !s.b.rFlag && FileOk(f) && f.signed
    ensures Readable(Fetched(s.b).slots[TEMP])
    ensures var r := Flushed(s.b, f, s.consumer.key, s.consumer.maxDur);
            && r.0 == FinishFlush(s, r.2 != OUT_OF_BUFFER).0.b
            && match FinishFlush(s, r.2 != OUT_OF_BUFFER).1
               case None => r.1 == f && r.2 == 0
               case Some(bytes) => (r.1, r.2) == WriteTo(f, bytes)
  {
    NothingToFetch(s);
    FlushChoice(s, Flushed(s.b, f, s.consumer.key, s.consumer.maxDur).2 != OUT_OF_BUFFER);
  }
}
