/** How long a recording is counted to be: in every run, the length of what its flushes gave to the file. */
module FlvLength {
  import opened CInt
  import opened Options
  import opened Sequences
  import opened FlvTag
  import opened FlvParse
  import opened MemFile
  import opened FlvBuffers
  import opened FlvHandover
  import opened FlvRecorder

  // The length of packets.

  /** The first packet at which a limit is reached, or the last. */
  function ReachedAt(tags: seq<Tag>, first: UInt32, limit: int): (k: nat)
    requires tags != []
    ensures k < |tags| && FlvParse.Reaches(tags, first, limit, k)
  {
    if |tags| == 1 || Sub32(tags[0].stamp, first) >= limit then 0
    else
      var k := ReachedAt(tags[1..], first, limit);
      assert forall i :: 0 < i < k + 1 ==> tags[i] == tags[1..][i - 1];
      k + 1
  }

  /** The time from the first packet to the last, or to the first that reaches a limit. */
  function Measured(tags: seq<Tag>, limit: int): int {
    if tags == [] then 0
    else if limit <= 0 then Recorded(tags)
    else Recorded(tags[..ReachedAt(tags, tags[0].stamp, limit) + 1])
  }

  function Positive(x: int): nat {
    if x > 0 then x else 0
  }

  /** A flush is measured against what is left of the length asked for, and time that runs backwards does not count. */
  function Longer(before: nat, tags: seq<Tag>, maxDur: int): nat {
    before + Positive(Measured(tags, maxDur - before))
  }

  /** The total of some flushes. */
  function Length(flushes: seq<seq<Tag>>, maxDur: int): nat {
    if flushes == [] then 0
    else Longer(Length(flushes[..|flushes| - 1], maxDur), flushes[|flushes| - 1], maxDur)
  }

  // A book of the flushes beside the recorder.

  /** What the file has taken since the flushes in the book. */
  function Unbooked(r: Recorder, flushes: seq<seq<Tag>>): seq<Tag>
    requires r.start <= |r.h.out| && OutBelow(r.h) && |Flatten(flushes)| <= |Body(r)|
  {
    Body(r)[|Flatten(flushes)|..]
  }

  function Limit(c: Consumer): Option<int> {
    match c
    case Fetching(_, maxDur) => Some(maxDur)
    case Taking(_, maxDur, _) => Some(maxDur)
    case Looking(_, maxDur) => Some(maxDur)
    case Located(_, maxDur, _) => Some(maxDur)
    case Chosen(_, _, _, maxDur, _) => Some(maxDur)
    case _ => None
  }

  /** The duration a flush is about to report, if it has written. */
  function Reporting(c: Consumer): Option<int> {
    match c
    case Clearing(ok, duration) => if ok then Some(duration) else None
    case Back(ok, reported) => if ok then reported else None
    case _ => None
  }

  /** The recorder's variables, the packets its file has taken, and the book. */
  predicate Books(phase: Phase, curDur: int, maxDur: int, c: Consumer, body: seq<Tag>, flushes: seq<seq<Tag>>) {
    && Flatten(flushes) <= body
    && (phase == Beginning || phase == HeaderNext ==> flushes == [])
    && (phase == Looping ==> curDur >= 0) && (curDur >= 0 ==> curDur == Length(flushes, maxDur))
    && (Limit(c).Some? ==> Limit(c).value == maxDur - curDur)
    && Reports(c, body[|Flatten(flushes)|..], maxDur - curDur)
  }

  predicate BookOk(r: Recorder, flushes: seq<seq<Tag>>)
    requires r.start <= |r.h.out| && OutBelow(r.h)
  {
    Books(r.phase, r.curDur, r.maxDur, r.h.consumer, Body(r), flushes)
  }

  function Booked(r: Recorder, e: RecorderStep, flushes: seq<seq<Tag>>): seq<seq<Tag>>
    requires r.start <= |r.h.out| && OutBelow(r.h) && |Flatten(flushes)| <= |Body(r)| && Possible(r, e)
  {
    match e
    case Open(_) => []
    case Finish(_) => if r.h.consumer.ok then flushes + [Unbooked(r, flushes)] else flushes
    case _ => flushes
  }

  lemma OpenBooks(r: Recorder, maxDur: int, flushes: seq<seq<Tag>>)
    requires RecorderOk(r) && Possible(r, Open(maxDur))
    ensures Shapely(FlvRecorder.Opened(r, maxDur)) && BookOk(FlvRecorder.Opened(r, maxDur), [])
  {
    OpenKeeps(r, maxDur);
    EmptyBody(FlvRecorder.Opened(r, maxDur));
  }

  lemma HeaderBooks(r: Recorder, sps: seq<Byte>, pps: seq<Byte>, flushes: seq<seq<Tag>>)
    requires Shapely(r) && Possible(r, WriteHeader(sps, pps)) && BookOk(r, flushes)
    ensures Shapely(HeaderWritten(r, sps, pps)) && BookOk(HeaderWritten(r, sps, pps), flushes)
  {
    HeaderKeeps(r, sps, pps);
    BodyKept(r, HeaderWritten(r, sps, pps));
  }

  lemma PreambleBooks(r: Recorder, flushes: seq<seq<Tag>>)
    requires Shapely(r) && Possible(r, WritePreamble) && BookOk(r, flushes)
    ensures Shapely(PreambleWritten(r)) && BookOk(PreambleWritten(r), flushes)
  {
    PreambleKeeps(r);
    BodyKept(r, PreambleWritten(r));
  }

  lemma EndBooks(r: Recorder, t: Recorder, flushes: seq<seq<Tag>>)
    requires Shapely(r) && BookOk(r, flushes) && t == r.(phase := t.phase, file := t.file)
    requires t.phase == r.phase || t.phase == Off
    ensures BookOk(t, flushes)
  {
    BodyKept(r, t);
  }

  lemma CallBooks(r: Recorder, flushes: seq<seq<Tag>>)
    requires RecorderOk(r) && Possible(r, CallFlush) && BookOk(r, flushes)
    ensures RecorderOk(Next(r, CallFlush)) && BookOk(Next(r, CallFlush), flushes)
  {
    NextKeeps(r, CallFlush);
    BodyKept(r, Next(r, CallFlush));
  }

  /** The other steps pass on the limit, and what is reported. */
  lemma ElsewherePassesLimit(h: State, a: Step)
    requires Inv(h) && IsElsewhere(a) && Enabled(h, a)
    ensures var c, d := h.consumer, Apply(h, a).consumer;
            && (Limit(d).Some? ==> Limit(d) == Limit(c)) && Reporting(d) == Reporting(c)
  {
    if ByProducer(a) {
      ThreadsDoNotMeet(h, a);
    }
  }

  lemma ElsewhereBooks(r: Recorder, a: Step, flushes: seq<seq<Tag>>)
    requires RecorderOk(r) && Possible(r, Elsewhere(a)) && BookOk(r, flushes)
    ensures RecorderOk(Next(r, Elsewhere(a))) && BookOk(Next(r, Elsewhere(a)), flushes)
  {
    NextKeeps(r, Elsewhere(a));
    ElsewhereKeepsOut(r.h, a);
    ElsewherePassesLimit(r.h, a);
    BodyKept(r, Next(r, Elsewhere(a)));
  }

  lemma ReportIsMeasured(s: State)
    requires Shaped(s) && ReaderOk(s) && CanWrite(s)
    ensures var tags := s.pushed[s.consumer.from..s.hi[TEMP]];
            tags != [] && Written(s).1.duration == Measured(tags, s.consumer.maxDur)
  {
    ReportedDuration(s, 0);
    var tags := s.pushed[s.consumer.from..s.hi[TEMP]];
    ReportedDuration(s, ReachedAt(tags, tags[0].stamp, s.consumer.maxDur));
  }

  /** Packets written, with what is measured of them on report. */
  lemma BooksMore(phase: Phase, curDur: int, maxDur: int, c: Consumer, d: Consumer, body: seq<Tag>, more: seq<Tag>,
                  flushes: seq<seq<Tag>>)
    requires Books(phase, curDur, maxDur, c, body, flushes) && c.Chosen? && more != []
    requires d == Clearing(true, Measured(more, c.maxDur))
    ensures Books(phase, curDur, maxDur, d, body + more, flushes)
  {
    NowReports(c, more, maxDur - curDur);
    WholeAndMore(body, Flatten(flushes), more);
  }

  lemma NowReports(c: Consumer, more: seq<Tag>, limit: int)
    requires c.Chosen? && c.maxDur == limit && more != []
    ensures Reports(Clearing(true, Measured(more, c.maxDur)), more, limit)
  {
  }

  lemma WholeAndMore(body: seq<Tag>, booked: seq<Tag>, more: seq<Tag>)
    requires booked <= body && body[|booked|..] == []
    ensures booked <= body + more && (body + more)[|booked|..] == more
  {
    assert |body| == |booked|;
  }

  /** What a write changes beside the file: the packets the file has taken, and what is to be reported. */
  lemma WriteReports(s: State, ok: bool)
    requires Shaped(s) && ReaderOk(s) && CanWrite(s)
    ensures var c, t, tags := s.consumer, FlvHandover.Write(s, ok), s.pushed[s.consumer.from..s.hi[TEMP]];
            && t.pushed == s.pushed && t.out == (if ok then s.out + Indices(c.from, s.hi[TEMP]) else s.out)
            && tags != [] && t.consumer == Clearing(ok, Measured(tags, c.maxDur))
  {
    ReportIsMeasured(s);
  }

  lemma AcceptedBooks(r: Recorder, t: Recorder, more: seq<Tag>, flushes: seq<seq<Tag>>)
    requires r.start <= |r.h.out| && OutBelow(r.h) && BookOk(r, flushes) && r.h.consumer.Chosen?
    requires more != [] && t.start <= |t.h.out| && OutBelow(t.h) && Body(t) == Body(r) + more
    requires t.phase == r.phase && t.curDur == r.curDur && t.maxDur == r.maxDur
    requires t.h.consumer == Clearing(true, Measured(more, r.h.consumer.maxDur))
    ensures BookOk(t, flushes)
  {
    BooksMore(r.phase, r.curDur, r.maxDur, r.h.consumer, t.h.consumer, Body(r), more, flushes);
  }

  lemma RefusedBooks(r: Recorder, t: Recorder, flushes: seq<seq<Tag>>)
    requires r.start <= |r.h.out| && OutBelow(r.h) && BookOk(r, flushes) && r.h.consumer.Chosen?
    requires t.start <= |t.h.out| && OutBelow(t.h) && Body(t) == Body(r)
    requires t.phase == r.phase && t.curDur == r.curDur && t.maxDur == r.maxDur
    requires t.h.consumer.Clearing? && !t.h.consumer.ok
    ensures BookOk(t, flushes)
  {
  }

  lemma WrittenBooks(r: Recorder, t: Recorder, ok: bool, flushes: seq<seq<Tag>>)
    requires Shapely(r) && Inv(r.h) && CanWrite(r.h) && BookOk(r, flushes)
    requires t == r.(file := t.file, h := FlvHandover.Write(r.h, ok))
    ensures t.start <= |t.h.out| && OutBelow(t.h) && BookOk(t, flushes)
  {
    var from, hi := r.h.consumer.from, r.h.hi[TEMP];
    WrittenIsPackets(r.h);
    WriteReports(r.h, ok);
    if ok {
      BodyGrows(r, t, from, hi);
      AcceptedBooks(r, t, r.h.pushed[from..hi], flushes);
    } else {
      BodyKept(r, t);
      RefusedBooks(r, t, flushes);
    }
  }

  lemma WriteBooks(r: Recorder, flushes: seq<seq<Tag>>)
    requires RecorderOk(r) && Possible(r, WriteFile) && BookOk(r, flushes)
    ensures RecorderOk(Next(r, WriteFile)) && BookOk(Next(r, WriteFile), flushes)
  {
    NextKeeps(r, WriteFile);
    WrittenBooks(r, FileWritten(r), WriteTo(r.file, Written(r.h).0).1 != OUT_OF_BUFFER, flushes);
  }

  lemma {:induction false} LengthMore(flushes: seq<seq<Tag>>, more: seq<Tag>, maxDur: int)
    ensures Length(flushes + [more], maxDur) == Longer(Length(flushes, maxDur), more, maxDur)
  {
    var all, n := flushes + [more], |flushes|;
    assert all[..n] == flushes && all[n] == more;
  }

  lemma BookedWhole(body: seq<Tag>, flushes: seq<seq<Tag>>)
    requires Flatten(flushes) <= body
    ensures var more := body[|Flatten(flushes)|..];
            Flatten(flushes + [more]) == body
  {
    FlattenSnoc(flushes, body[|Flatten(flushes)|..]);
  }

  lemma BooksFail(phase: Phase, curDur: int, maxDur: int, c: Consumer, body: seq<Tag>, flushes: seq<seq<Tag>>)
    requires Books(phase, curDur, maxDur, c, body, flushes) && c.Back? && !c.ok
    ensures Books(Off, curDur, maxDur, Away, body, flushes)
  {
  }

  predicate Reports(c: Consumer, unbooked: seq<Tag>, limit: int) {
    match Reporting(c)
    case None => unbooked == []
    case Some(duration) => unbooked != [] && duration == Measured(unbooked, limit)
  }

  /** A flush comes back: what it counts is the length of what it has written. */
  lemma CountedIsMeasured(c: Consumer, unbooked: seq<Tag>, limit: int)
    requires c.Back? && c.ok && Reports(c, unbooked, limit)
    ensures Counted(c) == Positive(Measured(unbooked, limit))
  {
  }

  lemma LengthFinishes(curDur: int, maxDur: int, c: Consumer, unbooked: seq<Tag>, flushes: seq<seq<Tag>>)
    requires c.Back? && c.ok && Reports(c, unbooked, maxDur - curDur) && curDur == Length(flushes, maxDur)
    ensures curDur + Counted(c) == Length(flushes + [unbooked], maxDur)
  {
    CountedIsMeasured(c, unbooked, maxDur - curDur);
    LengthMore(flushes, unbooked, maxDur);
  }

  lemma BooksClose(phase: Phase, curDur: int, maxDur: int, body: seq<Tag>, flushes: seq<seq<Tag>>)
    requires phase == Looping || phase == Off
    requires Flatten(flushes) == body && curDur >= 0 && curDur == Length(flushes, maxDur)
    ensures Books(phase, curDur, maxDur, Away, body, flushes)
  {
  }

  lemma BooksFinish(phase: Phase, curDur: int, maxDur: int, c: Consumer, body: seq<Tag>, flushes: seq<seq<Tag>>, after: Phase)
    requires Books(phase, curDur, maxDur, c, body, flushes) && c.Back? && c.ok && curDur >= 0
    requires after == Looping || after == Off
    ensures Books(after, curDur + Counted(c), maxDur, Away, body, flushes + [body[|Flatten(flushes)|..]])
  {
    var more := body[|Flatten(flushes)|..];
    LengthFinishes(curDur, maxDur, c, more, flushes);
    BookedWhole(body, flushes);
    BooksClose(after, curDur + Counted(c), maxDur, body, flushes + [more]);
  }

  lemma FinishBooks(r: Recorder, overtime: bool, flushes: seq<seq<Tag>>)
    requires RecorderOk(r) && Possible(r, Finish(overtime)) && BookOk(r, flushes)
    ensures Shapely(Finished(r, overtime)) && BookOk(Finished(r, overtime), Booked(r, Finish(overtime), flushes))
  {
    FinishKeepsShape(r, overtime);
    BodyKept(r, Finished(r, overtime));
    if r.h.consumer.ok {
      BooksFinish(r.phase, r.curDur, r.maxDur, r.h.consumer, Body(r), flushes, Finished(r, overtime).phase);
    } else {
      BooksFail(r.phase, r.curDur, r.maxDur, r.h.consumer, Body(r), flushes);
    }
  }

  /** After a flush the recording goes on if and only if the flush was no error, the clock does not stop it, and the total
      is still below the length asked for. */
  lemma GoesOnExactlyWhen(r: Recorder, overtime: bool, flushes: seq<seq<Tag>>)
    requires RecorderOk(r) && Possible(r, Finish(overtime)) && BookOk(r, flushes)
    ensures var total := Length(Booked(r, Finish(overtime), flushes), r.maxDur);
            Finished(r, overtime).phase == Looping <==> r.h.consumer.ok && !overtime && total < r.maxDur
  {
    if r.h.consumer.ok {
      TotalIsCounted(r.curDur, r.maxDur, r.h.consumer, Body(r), flushes);
    }
  }

  lemma TotalIsCounted(curDur: int, maxDur: int, c: Consumer, body: seq<Tag>, flushes: seq<seq<Tag>>)
    requires Books(Looping, curDur, maxDur, c, body, flushes) && c.Back? && c.ok
    ensures Length(flushes + [body[|Flatten(flushes)|..]], maxDur) == curDur + Counted(c)
  {
    LengthFinishes(curDur, maxDur, c, body[|Flatten(flushes)|..], flushes);
  }

  /** Every step keeps the book. */
  lemma NextBooks(r: Recorder, e: RecorderStep, flushes: seq<seq<Tag>>)
    requires RecorderOk(r) && Possible(r, e) && BookOk(r, flushes)
    ensures RecorderOk(Next(r, e)) && BookOk(Next(r, e), Booked(r, e, flushes))
  {
    NextKeeps(r, e);
    match e
    case Open(maxDur) => OpenBooks(r, maxDur, flushes);
    case Finish(overtime) => FinishBooks(r, overtime, flushes);
    case WriteFile => WriteBooks(r, flushes);
    case CallFlush => CallBooks(r, flushes);
    case Elsewhere(a) => ElsewhereBooks(r, a, flushes);
    case WritePreamble => PreambleBooks(r, flushes);
    case WriteHeader(sps, pps) => HeaderBooks(r, sps, pps, flushes);
    case _ => EndBooks(r, Next(r, e), flushes);
  }

  /** The book of a whole run. */
  ghost function Book(r: Recording, flushes: seq<seq<Tag>>, steps: seq<RecorderStep>): (b: seq<seq<Tag>>)
    requires BookOk(r, flushes) && FlvRecorder.Reaches(r, steps).Some?
    ensures BookOk(FlvRecorder.Reaches(r, steps).value, b)
    decreases |steps|
  {
    if steps == [] then flushes
    else
      var n := |steps| - 1;
      var m := FlvRecorder.Reaches(r, steps[..n]).value;
      var b := Book(r, flushes, steps[..n]);
      NextBooks(m, steps[n], b);
      Booked(m, steps[n], b)
  }

  lemma NothingBooked(max: nat)
    ensures RecorderOk(NoRecording(max)) && BookOk(NoRecording(max), [])
  {
    StartsSound(max);
    EmptyBody(NoRecording(max));
  }

  /** After any run, and whenever no flush is under way, the packets of the recording are those of its flushes, one after
      the other, and the length it is counted to have is the total of theirs. While it goes on it is below the length asked
      for, or 0. */
  lemma RecordingsAreMeasured(max: nat, steps: seq<RecorderStep>)
    requires RecorderOk(NoRecording(max)) && BookOk(NoRecording(max), []) && FlvRecorder.Reaches(NoRecording(max), steps).Some?
    ensures var r, flushes := FlvRecorder.Reaches(NoRecording(max), steps).value, Book(NoRecording(max), [], steps);
            && (r.h.consumer.Away? ==> Body(r) == Flatten(flushes))
            && (r.curDur >= 0 ==> r.curDur == Length(flushes, r.maxDur))
            && (r.phase == Looping && r.curDur > 0 ==> r.curDur < r.maxDur)
  {
    var r, flushes := FlvRecorder.Reaches(NoRecording(max), steps).value, Book(NoRecording(max), [], steps);
    if r.h.consumer.Away? {
      assert Body(r) == Flatten(flushes) + Unbooked(r, flushes);
    }
  }
}
