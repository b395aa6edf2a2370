/** What becomes of a pushed packet: in every interleaving it waits, is written or is lost, exactly one of the three. */
module FlvFate {
  import opened CInt
  import opened Options
  import opened FlvTag
  import opened FlvParse
  import opened FlvBuffers
  import opened FlvHandover

  predicate InBuffer(s: State, pos: nat, i: nat)
    requires pos < 3 && |s.lo| == 3 && |s.hi| == 3
  {
    s.lo[pos] <= i < s.hi[pos]
  }

  /** The first packet the consumer has not skipped. */
  function FirstTaken(s: State): nat
    requires |s.lo| == 3
  {
    match s.consumer
    case Located(_, _, from) => from
    case Chosen(_, _, _, _, from) => from
    case _ => s.lo[TEMP]
  }

  predicate AwaitsReading(s: State, i: nat)
    requires Shaped(s)
  {
    s.b.rFlag && !s.consumer.Taking? && InBuffer(s, s.b.rPos, i)
  }

  predicate AwaitsWriting(s: State, i: nat)
    requires Shaped(s)
  {
    Pending(s) && FirstTaken(s) <= i < s.hi[TEMP]
  }

  /** Packet i waits in the write buffer, in the buffer ready to be read, or among those taken. */
  predicate Waiting(s: State, i: nat)
    requires Shaped(s)
  {
    InBuffer(s, s.b.wPos, i) || AwaitsReading(s, i) || AwaitsWriting(s, i)
  }

  /** The consumer has its position and will write from there, whatever the size says. */
  predicate Chose(s: State) {
    s.consumer.Located? || s.consumer.Chosen?
  }

  /** The step loses packet i: a switch, which there is only without room or after three seconds, or a reset before it
      was read, taking new data over it, skipping it to a key frame that is there, finding the buffer reset after the
      search, or a file that refuses it. A reset does not lose what the consumer has already chosen; that is lost, if at
      all, when the size is read once more. */
  predicate Loses(s: State, a: Step, i: nat)
    requires Inv(s) && Enabled(s, a)
  {
    match a
    case DoPrepare(tag) =>
      HandsOver(s.b.slots[s.b.wPos], Filled(s, s.b.wPos), TagSize(tag)) && AwaitsReading(s, i)
    case DoReset => Waiting(s, i) && !(Chose(s) && AwaitsWriting(s, i))
    case DoLock => s.b.rFlag && AwaitsWriting(s, i)
    case DoLook =>
      var tags := Filled(s, TEMP);
      s.consumer.key && AwaitsWriting(s, i) && KeyIndex(tags) < |tags| && i < s.lo[TEMP] + KeyIndex(tags)
    case DoLocate => s.b.slots[TEMP].size == 0 && AwaitsWriting(s, i)
    case DoWrite(ok) => !ok && AwaitsWriting(s, i)
    case _ => false
  }

  function One(p: bool): nat {
    if p then 1 else 0
  }

  /** In how many of the two places packet i is. */
  function Places(s: State, i: nat): nat
    requires Shaped(s)
  {
    One(Waiting(s, i)) + One(i in s.out)
  }

  /** No packet both waits and is written, and none is anywhere before it is pushed. */
  lemma PlacesAtMostOne(s: State, i: nat)
    requires Inv(s)
    ensures Places(s, i) <= 1 && (i >= |s.pushed| ==> Places(s, i) == 0)
  {
  }

  lemma SwitchFate(s: State, i: nat)
    requires Inv(s) && s.producer.Idle? && !s.consumer.Taking? && i < |s.pushed|
    ensures Shaped(Switched(s)) && Places(s, i) == Places(Switched(s), i) + One(AwaitsReading(s, i))
  {
    PlacesAtMostOne(s, i);
  }

  /** The packet being copied does not count yet. */
  lemma ProducerIsNoMatter(s: State, p: Producer, i: nat)
    requires Shaped(s)
    ensures Shaped(s.(producer := p)) && Places(s.(producer := p), i) == Places(s, i)
  {
  }

  lemma PrepareIsSwitch(s: State, tag: Tag)
    requires Inv(s) && CanPrepare(s, tag)
    ensures Prepare(s, tag).(producer := Idle)
            == if HandsOver(s.b.slots[s.b.wPos], Filled(s, s.b.wPos), TagSize(tag)) then Switched(s) else s
  {
    SwitchExactlyWhen(s.b.slots[s.b.wPos], Filled(s, s.b.wPos), TagSize(tag));
  }

  lemma PrepareFate(s: State, tag: Tag, i: nat)
    requires Inv(s) && CanPrepare(s, tag) && i < |s.pushed|
    ensures Shaped(Prepare(s, tag))
    ensures Places(s, i) == Places(Prepare(s, tag), i) + One(Loses(s, DoPrepare(tag), i))
  {
    PrepareIsSwitch(s, tag);
    PrepareKeeps(s, tag);
    SwitchFate(s, i);
    ProducerIsNoMatter(Prepare(s, tag), Idle, i);
  }

  lemma PublishFate(s: State, i: nat)
    requires Inv(s) && CanPublish(s) && i <= |s.pushed|
    ensures Shaped(Publish(s))
    ensures Places(Publish(s), i) == if i == |s.pushed| then 1 else Places(s, i)
  {
    PublishKeeps(s);
    PlacesAtMostOne(s, i);
  }

  lemma ResetFate(s: State, i: nat)
    requires Inv(s) && CanReset(s) && i < |s.pushed|
    ensures Shaped(Reset(s)) && Places(s, i) == Places(Reset(s), i) + One(Loses(s, DoReset, i))
  {
    ResetKeeps(s);
    PlacesAtMostOne(s, i);
  }

  lemma LockFate(s: State, i: nat)
    requires Inv(s) && s.consumer.Fetching? && i < |s.pushed|
    ensures Shaped(Lock(s)) && Places(s, i) == Places(Lock(s), i) + One(Loses(s, DoLock, i))
  {
    LockKeeps(s);
    PlacesAtMostOne(s, i);
  }

  lemma NoBytesNoTags(tags: seq<Tag>)
    requires StreamBytes(tags) == []
    ensures tags == []
  {
  }

  lemma UnlockFate(s: State, i: nat)
    requires Inv(s) && CanUnlock(s) && i < |s.pushed|
    ensures Shaped(Unlock(s)) && Places(s, i) == Places(Unlock(s), i)
  {
    UnlockKeeps(s);
    PlacesAtMostOne(s, i);
    if s.b.slots[TEMP].size == 0 {
      NoBytesNoTags(s.pushed[s.lo[TEMP]..s.hi[TEMP]]);
    }
  }

  /** What is chosen is everything taken, or everything from the first key frame on; without one nothing changes. */
  lemma LookChooses(s: State)
    requires Inv(s) && s.consumer.Looking?
    ensures var t, tags := Look(s), Filled(s, TEMP);
            && t == s.(consumer := t.consumer)
            && (Pending(t) <==> Pending(s)) && !t.consumer.Taking?
            && FirstTaken(t) == s.lo[TEMP]
                                + if s.consumer.key && Pending(s) && KeyIndex(tags) < |tags| then KeyIndex(tags) else 0
  {
    var mem := s.b.slots[TEMP];
    if s.consumer.key && mem.size != 0 {
      SearchOfTags(mem.data, Full(s), Filled(s, TEMP));
    }
  }

  lemma LookFate(s: State, i: nat)
    requires Inv(s) && s.consumer.Looking? && i < |s.pushed|
    ensures Shaped(Look(s)) && Places(s, i) == Places(Look(s), i) + One(Loses(s, DoLook, i))
  {
    RestKept(s, Look(s));
    LookChooses(s);
    PlacesAtMostOne(s, i);
  }

  lemma LocateFate(s: State, i: nat)
    requires Inv(s) && s.consumer.Located? && i < |s.pushed|
    ensures Shaped(Locate(s)) && Places(s, i) == Places(Locate(s), i) + One(Loses(s, DoLocate, i))
  {
    RestKept(s, Locate(s));
    PlacesAtMostOne(s, i);
  }

  lemma AppendedRange(out: seq<nat>, from: nat, hi: nat, i: nat)
    requires from <= hi
    ensures i in out + Indices(from, hi) <==> i in out || from <= i < hi
  {
    if from <= i < hi {
      assert (out + Indices(from, hi))[|out| + (i - from)] == i;
    }
  }

  lemma WriteFate(s: State, ok: bool, i: nat)
    requires Inv(s) && CanWrite(s) && i < |s.pushed|
    ensures Shaped(Write(s, ok)) && Places(s, i) == Places(Write(s, ok), i) + One(Loses(s, DoWrite(ok), i))
  {
    WriteKeeps(s, ok);
    AppendedRange(s.out, s.consumer.from, s.hi[TEMP], i);
    PlacesAtMostOne(s, i);
  }

  lemma CopyByteFate(s: State, i: nat)
    requires Inv(s) && CanCopy(s)
    ensures Shaped(CopyByte(s)) && Places(s, i) == Places(CopyByte(s), i)
  {
    CopyByteKeeps(s);
    SameFate(s, CopyByte(s), i);
  }

  lemma TakeByteFate(s: State, i: nat)
    requires Inv(s) && CanTake(s)
    ensures Shaped(TakeByte(s)) && Places(s, i) == Places(TakeByte(s), i)
  {
    TakeByteKeeps(s);
    SameFate(s, TakeByte(s), i);
  }

  /** Steps that move neither data nor the consumer's choice. */
  lemma QuietFate(s: State, a: Step, i: nat)
    requires Inv(s) && Enabled(s, a)
    requires a.DoCopyByte? || a.DoCall? || a.DoTakeByte? || a.DoGiveUp? || a.DoClear? || a.DoReturn?
    ensures Shaped(Apply(s, a)) && Places(s, i) == Places(Apply(s, a), i)
  {
    match a
    case DoCopyByte => CopyByteFate(s, i);
    case DoCall(key, maxDur) => SameFate(s, Call(s, key, maxDur), i);
    case DoTakeByte => TakeByteFate(s, i);
    case DoGiveUp => SameFate(s, GiveUp(s), i);
    case DoClear => SameFate(s, Clear(s), i);
    case DoReturn => SameFate(s, Return(s), i);
  }

  lemma SameFate(s: State, t: State, i: nat)
    requires Shaped(s) && Shaped(t) && t.lo == s.lo && t.hi == s.hi && t.out == s.out
    requires t.b.wPos == s.b.wPos && t.b.rPos == s.b.rPos && t.b.rFlag == s.b.rFlag
    requires t.consumer.Taking? <==> s.consumer.Taking?
    requires (Pending(t) <==> Pending(s)) && (Pending(s) ==> FirstTaken(t) == FirstTaken(s))
    ensures Places(t, i) == Places(s, i)
  {
  }

  /** What a step does to a packet pushed before. */
  lemma OldPacketFate(s: State, a: Step, i: nat)
    requires Inv(s) && Enabled(s, a) && i < |s.pushed|
    ensures Shaped(Apply(s, a)) && Places(s, i) == Places(Apply(s, a), i) + One(Loses(s, a, i))
  {
    match a
    case DoPrepare(tag) => PrepareFate(s, tag, i);
    case DoPublish => PublishFate(s, i);
    case DoReset => ResetFate(s, i);
    case DoLock => LockFate(s, i);
    case DoUnlock => UnlockFate(s, i);
    case DoLook => LookFate(s, i);
    case DoLocate => LocateFate(s, i);
    case DoWrite(ok) => WriteFate(s, ok, i);
    case _ => QuietFate(s, a, i);
  }

  lemma NewPacketFate(s: State, a: Step, i: nat)
    requires Inv(s) && Enabled(s, a) && |s.pushed| <= i < |Apply(s, a).pushed|
    ensures Shaped(Apply(s, a)) && Places(Apply(s, a), i) == 1
  {
    if a.DoPublish? {
      PublishFate(s, i);
    }
  }

  lemma OnlyWaitingIsLost(s: State, a: Step, i: nat)
    requires Inv(s) && Enabled(s, a) && Loses(s, a, i)
    ensures Waiting(s, i) && i < |s.pushed|
  {
    PlacesAtMostOne(s, i);
  }

  /** What is written stays written. */
  lemma OutGrows(s: State, a: Step)
    requires Inv(s) && Enabled(s, a)
    ensures s.out <= Apply(s, a).out
  {
  }

  /** Whatever step is taken, a packet stays where it is, moves from waiting to written, or is lost by the step: lost if
      and only if it was waiting and is in neither place afterwards. One in neither place never comes back, and one that
      is published begins to wait. */
  lemma StepFate(s: State, a: Step, i: nat)
    requires Inv(s) && Enabled(s, a)
    ensures Inv(Apply(s, a)) && s.out <= Apply(s, a).out
    ensures var t := Apply(s, a);
            && (Loses(s, a, i) <==> Waiting(s, i) && !Waiting(t, i) && i !in t.out)
            && (i < |s.pushed| && Places(s, i) == 0 ==> Places(t, i) == 0)
            && Places(s, i) + One(|s.pushed| <= i < |t.pushed|) == Places(t, i) + One(Loses(s, a, i))
  {
    StepKeeps(s, a);
    OutGrows(s, a);
    PlacesAtMostOne(s, i);
    PlacesAtMostOne(Apply(s, a), i);
    if i < |s.pushed| {
      OldPacketFate(s, a, i);
    } else if i < |Apply(s, a).pushed| {
      NewPacketFate(s, a, i);
    }
    if Loses(s, a, i) {
      OnlyWaitingIsLost(s, a, i);
    }
  }

  lemma PushedGrows(s: State, a: Step)
    requires Inv(s) && Enabled(s, a)
    ensures |s.pushed| <= |Apply(s, a).pushed|
  {
  }

  /** How many steps of a run lose packet i. */
  function Losses(s: Reached, steps: seq<Step>, i: nat): nat
    requires After(s, steps).Some?
  {
    if steps == [] then 0
    else
      var last := |steps| - 1;
      Losses(s, steps[..last], i) + One(Loses(After(s, steps[..last]).value, steps[last], i))
  }

  /** Conservation: at the end of any run of both threads every packet pushed waits, has been written once, or has been
      lost by exactly one step, and no two of these; a packet not pushed yet is none of them. */
  lemma {:induction false} EveryPacketHasOneFate(s: Reached, steps: seq<Step>, i: nat)
    requires s.pushed == [] && After(s, steps).Some?
    ensures var t := After(s, steps).value;
            One(Waiting(t, i)) + One(i in t.out) + Losses(s, steps, i) == One(i < |t.pushed|)
    decreases |steps|
  {
    if steps == [] {
      PlacesAtMostOne(s, i);
    } else {
      var last := |steps| - 1;
      var m := After(s, steps[..last]).value;
      EveryPacketHasOneFate(s, steps[..last], i);
      StepFate(m, steps[last], i);
      PushedGrows(m, steps[last]);
    }
  }
}
