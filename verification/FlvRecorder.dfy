/** The recording loop around the buffers: what every recorded file looks like, whatever the producer does meanwhile. */
module FlvRecorder {
  import opened CInt
  import opened Options
  import opened Memory
  import opened MemFile
  import opened FlvTag
  import opened FlvMux
  import opened FlvParse
  import opened FlvBuffers
  import opened FlvHandover

  // The fixed beginning of a file: signature, version, flags and header size, a zero, and a tag of script data.

  const FLV_HEADER: seq<Byte> := [0x46, 0x4C, 0x56, 0x01, 0x05, 0, 0, 0, 9, 0, 0, 0, 0]
  const SCRIPT_HEADER: seq<Byte> := [0x12, 0, 0x01, 0x51, 0, 0, 0, 0, 0, 0, 0]
  const SCRIPT_SEAL: seq<Byte> := [0, 0, 0x01, 0x5C]
  const SCRIPT_BODY: seq<Byte> :=
    [0x02, 0x00, 0x0A, 0x6F, 0x6E, 0x4D, 0x65, 0x74, 0x61, 0x44, 0x61, 0x74, 0x61, 0x08, 0x00, 0x00,
    0x00, 0x0F, 0x00, 0x08, 0x64, 0x75, 0x72, 0x61, 0x74, 0x69, 0x6F, 0x6E, 0x00, 0x40, 0x2E, 0x00] +
    [0x00, 0x00, 0x00, 0x00, 0x00, 0x00, 0x05, 0x77, 0x69, 0x64, 0x74, 0x68, 0x00, 0x40, 0x84, 0x00,
    0x00, 0x00, 0x00, 0x00, 0x00, 0x00, 0x06, 0x68, 0x65, 0x69, 0x67, 0x68, 0x74, 0x00, 0x40, 0x76] +
    [0x80, 0x00, 0x00, 0x00, 0x00, 0x00, 0x00, 0x0D, 0x76, 0x69, 0x64, 0x65, 0x6F, 0x64, 0x61, 0x74,
    0x61, 0x72, 0x61, 0x74, 0x65, 0x00, 0x40, 0x82, 0xC0, 0x00, 0x00, 0x00, 0x00, 0x00, 0x00, 0x09] +
    [0x66, 0x72, 0x61, 0x6D, 0x65, 0x72, 0x61, 0x74, 0x65, 0x00, 0x40, 0x28, 0x00, 0x00, 0x00, 0x00,
    0x00, 0x00, 0x00, 0x0C, 0x76, 0x69, 0x64, 0x65, 0x6F, 0x63, 0x6F, 0x64, 0x65, 0x63, 0x69, 0x64] +
    [0x00, 0x40, 0x1C, 0x00, 0x00, 0x00, 0x00, 0x00, 0x00, 0x00, 0x0D, 0x61, 0x75, 0x64, 0x69, 0x6F,
    0x64, 0x61, 0x74, 0x61, 0x72, 0x61, 0x74, 0x65, 0x00, 0x40, 0x60, 0x00, 0x00, 0x00, 0x00, 0x00] +
    [0x00, 0x00, 0x0F, 0x61, 0x75, 0x64, 0x69, 0x6F, 0x73, 0x61, 0x6D, 0x70, 0x6C, 0x65, 0x72, 0x61,
    0x74, 0x65, 0x00, 0x40, 0xBF, 0x40, 0x00, 0x00, 0x00, 0x00, 0x00, 0x00, 0x0F, 0x61, 0x75, 0x64] +
    [0x69, 0x6F, 0x73, 0x61, 0x6D, 0x70, 0x6C, 0x65, 0x73, 0x69, 0x7A, 0x65, 0x00, 0x40, 0x30, 0x00,
    0x00, 0x00, 0x00, 0x00, 0x00, 0x00, 0x06, 0x73, 0x74, 0x65, 0x72, 0x65, 0x6F, 0x01, 0x00, 0x00] +
    [0x0C, 0x61, 0x75, 0x64, 0x69, 0x6F, 0x63, 0x6F, 0x64, 0x65, 0x63, 0x69, 0x64, 0x00, 0x40, 0x1C,
    0x00, 0x00, 0x00, 0x00, 0x00, 0x00, 0x00, 0x0A, 0x73, 0x74, 0x72, 0x65, 0x61, 0x6D, 0x4E, 0x61] +
    [0x6D, 0x65, 0x02, 0x00, 0x0E, 0x44, 0x6F, 0x6F, 0x72, 0x42, 0x65, 0x6C, 0x6C, 0x53, 0x74, 0x72,
    0x65, 0x61, 0x6D, 0x00, 0x07, 0x65, 0x6E, 0x63, 0x6F, 0x64, 0x65, 0x72, 0x02, 0x00, 0x0D, 0x4C] +
    [0x61, 0x76, 0x66, 0x35, 0x35, 0x2E, 0x31, 0x32, 0x2E, 0x31, 0x30, 0x30, 0x00, 0x06, 0x61, 0x75,
    0x74, 0x68, 0x6F, 0x72, 0x02, 0x00, 0x04, 0x6C, 0x65, 0x6F, 0x6E, 0x00, 0x08, 0x66, 0x69, 0x6C] +
    [0x65, 0x73, 0x69, 0x7A, 0x65, 0x00, 0x00, 0x00, 0x00, 0x00, 0x00, 0x00, 0x00, 0x00, 0x00, 0x00,
    0x09]
  const PREAMBLE: seq<Byte> := FLV_HEADER + SCRIPT_HEADER + SCRIPT_BODY + SCRIPT_SEAL

  const SCRIPT_TAG := Tag(0x12, 0, SCRIPT_BODY)

  /** The constant is the file header and one well-formed tag. */
  lemma PreambleIsTag()
    ensures |PREAMBLE| == 365 && PREAMBLE == FLV_HEADER + TagBytes(SCRIPT_TAG)
  {
    assert |SCRIPT_BODY| == 337;
    assert SCRIPT_HEADER == Header(0x12, 337, 0) && SCRIPT_SEAL == Be32(348);
  }

  datatype Phase = Off | Beginning | HeaderNext | Looping

  datatype ParameterSets = ParameterSets(sps: seq<Byte>, pps: seq<Byte>)

  /** The recorder's own variables, the file, and the parameter sets each header tag in the muxer's header buffer was made
      of; start is how many packets had been written out when the recording began. */
  datatype Recorder = Recorder(h: State, phase: Phase, curDur: int, maxDur: int, file: File,
                               sets: seq<ParameterSets>, start: nat)

  /** The packets of the given indices. */
  function PacketsAt(pushed: seq<Tag>, indices: seq<nat>): (r: seq<Tag>)
    requires forall i :: 0 <= i < |indices| ==> indices[i] < |pushed|
    ensures |r| == |indices|
  {
    seq(|indices|, i requires 0 <= i < |indices| => pushed[indices[i]])
  }

  predicate OutBelow(h: State) {
    forall i :: 0 <= i < |h.out| ==> h.out[i] < |h.pushed|
  }

  /** The packets this recording has written. */
  function Body(r: Recorder): seq<Tag>
    requires r.start <= |r.h.out| && OutBelow(r.h)
  {
    PacketsAt(r.h.pushed, r.h.out[r.start..])
  }

  function Contents(f: File): seq<Byte>
    requires FileOk(f) && f.signed
  {
    f.bin[..f.current]
  }

  /** The AVC header tags made of parameter sets. */
  function HeaderTags(sets: seq<ParameterSets>): (r: seq<Tag>)
    ensures |r| == |sets|
  {
    seq(|sets|, i requires 0 <= i < |sets| => HeaderTag(sets[i].sps, sets[i].pps))
  }

  /** Parameter sets the muxer can hold, whose tags fit its header buffer. */
  predicate SetsOk(sets: seq<ParameterSets>) {
    && (forall i :: 0 <= i < |sets| ==> |sets[i].sps| < PARAMETER_MAX && |sets[i].pps| < PARAMETER_MAX)
    && |StreamBytes(HeaderTags(sets))| <= 2 * PARAMETER_MAX
  }

  /** The flush in progress asks for a key frame as long as nothing has been counted. */
  predicate AsksForKey(h: State, curDur: int) {
    match h.consumer
    case Fetching(key, _) => key == (curDur == 0)
    case Taking(key, _, _) => key == (curDur == 0)
    case Looking(key, _) => key == (curDur == 0)
    case Located(_, _, _) => curDur == 0
    case Chosen(_, _, key, _, _) => key == (curDur == 0)
    case _ => true
  }

  /** A duration is reported only for packets given to the file. */
  predicate ReportsWritten(r: Recorder) {
    match r.h.consumer
    case Clearing(ok, _) => ok ==> r.start < |r.h.out|
    case Back(ok, reported) => ok && reported.Some? ==> r.start < |r.h.out|
    case _ => true
  }

  /** The fixed beginning, the header tags, and whole packets of which the first is a key frame. */
  predicate Complete(r: Recorder)
    requires r.start <= |r.h.out| && OutBelow(r.h) && FileOk(r.file) && r.file.signed
  {
    && Contents(r.file) == PREAMBLE + StreamBytes(HeaderTags(r.sets)) + StreamBytes(Body(r))
    && r.sets != [] && (r.start < |r.h.out| ==> IsKey(Body(r)[0]))
  }

  predicate BeingWritten(f: File) {
    FileOk(f) && f.signed && f.named && f.limit == CAPACITY
  }

  /** A recording that was stopped leaves a complete file, unless it was stopped before the header tags. */
  predicate FileShaped(r: Recorder)
    requires r.start <= |r.h.out| && OutBelow(r.h) && FileOk(r.file)
  {
    match r.phase
    case Off =>
      r.file.signed && r.file.named ==>
        BeingWritten(r.file) && (Contents(r.file) == [] || Contents(r.file) == PREAMBLE || Complete(r))
    case Beginning => BeingWritten(r.file) && Contents(r.file) == [] && r.start == |r.h.out|
    case HeaderNext => BeingWritten(r.file) && Contents(r.file) == PREAMBLE && r.start == |r.h.out|
    case Looping => BeingWritten(r.file) && Complete(r)
  }

  /** A recording that goes on has counted less than it should last. */
  predicate LoopOk(r: Recorder) {
    && r.curDur >= 0 && (r.curDur > 0 ==> r.start < |r.h.out| && r.curDur < r.maxDur)
    && AsksForKey(r.h, r.curDur) && ReportsWritten(r)
  }

  predicate Shapely(r: Recorder) {
    && r.start <= |r.h.out| && OutBelow(r.h) && SetsOk(r.sets) && FileOk(r.file)
    && FileShaped(r)
    && (r.phase == Looping ==> LoopOk(r))
    && (r.phase != Looping ==> r.h.consumer.Away?)
  }

  predicate RecorderOk(r: Recorder) {
    Inv(r.h) && Shapely(r)
  }

  // The steps of the recording task.

  datatype RecorderStep =
    | Open(maxDur: int) | WritePreamble | WriteHeader(sps: seq<Byte>, pps: seq<Byte>)
    | CallFlush | Elsewhere(a: Step) | WriteFile | Finish(overtime: bool) | Stop | Remove

  /** Steps of the buffers' threads other than those the recorder takes part in. */
  predicate IsElsewhere(a: Step) {
    !a.DoCall? && !a.DoWrite? && !a.DoReturn?
  }

  predicate Possible(r: Recorder, e: RecorderStep) {
    match e
    case Open(_) => r.phase == Off && !(r.file.signed && r.file.named)
    case WritePreamble => r.phase == Beginning
    case WriteHeader(sps, pps) =>
      && r.phase == HeaderNext && |sps| < PARAMETER_MAX && |pps| < PARAMETER_MAX
      && |StreamBytes(HeaderTags(r.sets))| + |sps| + |pps| + 20 <= 2 * PARAMETER_MAX
    case CallFlush => r.phase == Looping && CanCall(r.h)
    case Elsewhere(a) => IsElsewhere(a) && Enabled(r.h, a)
    case WriteFile => r.phase == Looping && CanWrite(r.h)
    case Finish(_) => r.phase == Looping && r.h.consumer.Back?
    case Stop => r.phase != Off && r.h.consumer.Away?
    case Remove => r.phase == Off
  }

  /** A new recording on an empty file, opened for writing by whoever starts the recording. */
  function Opened(r: Recorder, maxDur: int): Recorder {
    r.(phase := Beginning, curDur := -1, maxDur := maxDur, start := |r.h.out|,
       file := MemFile.Open(r.file, true, ForWriting).0)
  }

  /** The result of writing the constant is not looked at. */
  function PreambleWritten(r: Recorder): Recorder
    requires FileOk(r.file) && r.file.signed
  {
    r.(phase := HeaderNext, file := WriteTo(r.file, PREAMBLE).0)
  }

  /** All header tags made so far are written; when that fails the file is begun once more. */
  function HeaderWritten(r: Recorder, sps: seq<Byte>, pps: seq<Byte>): Recorder
    requires FileOk(r.file) && r.file.signed
  {
    var sets := r.sets + [ParameterSets(sps, pps)];
    var w := WriteTo(r.file, StreamBytes(HeaderTags(sets)));
    if w.1 < 0 then r.(phase := Beginning, sets := sets)
    else r.(phase := Looping, sets := sets, file := w.0, curDur := 0)
  }

  /** A key frame is asked for as long as nothing has been counted. */
  function FlushCalled(r: Recorder): Recorder
    requires CanCall(r.h)
  {
    r.(h := Call(r.h, r.curDur == 0, r.maxDur - r.curDur))
  }

  function FileWritten(r: Recorder): Recorder
    requires Inv(r.h) && FileOk(r.file) && r.file.signed && CanWrite(r.h)
  {
    var w := WriteTo(r.file, Written(r.h).0);
    r.(file := w.0, h := FlvHandover.Write(r.h, w.1 != OUT_OF_BUFFER))
  }

  /** What a flush counts: the duration it reports, if it is positive. */
  function Counted(c: Consumer): nat
    requires c.Back?
  {
    if c.reported.Some? && c.reported.value > 0 then c.reported.value else 0
  }

  /** After a flush: stop on an error, at the duration asked for, or when the clock says so. */
  function Finished(r: Recorder, overtime: bool): Recorder
    requires r.h.consumer.Back?
  {
    var c, h := r.h.consumer, Return(r.h);
    if !c.ok then r.(h := h, phase := Off)
    else
      var dur := Counted(c);
      var done := r.curDur + dur >= r.maxDur || overtime;
      r.(h := h, curDur := r.curDur + dur, phase := if done then Off else Looping)
  }

  function Next(r: Recorder, e: RecorderStep): Recorder
    requires RecorderOk(r) && Possible(r, e)
  {
    match e
    case Open(maxDur) => Opened(r, maxDur)
    case WritePreamble => PreambleWritten(r)
    case WriteHeader(sps, pps) => HeaderWritten(r, sps, pps)
    case CallFlush => FlushCalled(r)
    case Elsewhere(a) => r.(h := Apply(r.h, a))
    case WriteFile => FileWritten(r)
    case Finish(overtime) => Finished(r, overtime)
    case Stop => r.(phase := Off)
    case Remove => r.(file := Erase(r.file))
  }

  // Each step keeps the shape.

  lemma WriteThatFits(f: File, data: seq<Byte>)
    requires FileOk(f) && f.signed && f.current + |data| <= f.limit
    ensures var w := WriteTo(f, data);
            && FileOk(w.0) && w.0.signed && w.0.named == f.named && w.0.limit == f.limit && w.1 == |data|
            && Contents(w.0) == Contents(f) + data
  {
    WriteAppends(f, data);
  }

  lemma OpenKeeps(r: Recorder, maxDur: int)
    requires Shapely(r) && Possible(r, Open(maxDur))
    ensures Shapely(Opened(r, maxDur))
  {
  }

  lemma PreambleKeeps(r: Recorder)
    requires Shapely(r) && r.phase == Beginning
    ensures Shapely(PreambleWritten(r))
  {
    PreambleIsTag();
    assert [] + PREAMBLE == PREAMBLE;
    WriteThatFits(r.file, PREAMBLE);
  }

  lemma HeaderGrows(sets: seq<ParameterSets>, sps: seq<Byte>, pps: seq<Byte>)
    requires SetsOk(sets) && |sps| < PARAMETER_MAX && |pps| < PARAMETER_MAX
    requires |StreamBytes(HeaderTags(sets))| + |sps| + |pps| + 20 <= 2 * PARAMETER_MAX
    ensures SetsOk(sets + [ParameterSets(sps, pps)])
  {
    assert HeaderTags(sets + [ParameterSets(sps, pps)]) == HeaderTags(sets) + [HeaderTag(sps, pps)];
    StreamConcat(HeaderTags(sets), [HeaderTag(sps, pps)]);
    StreamOne(HeaderTag(sps, pps));
  }

  lemma EmptyBody(r: Recorder)
    requires r.start == |r.h.out| && OutBelow(r.h)
    ensures Body(r) == [] && StreamBytes(Body(r)) == []
  {
  }

  lemma HeaderKeeps(r: Recorder, sps: seq<Byte>, pps: seq<Byte>)
    requires Shapely(r) && Possible(r, WriteHeader(sps, pps))
    ensures Shapely(HeaderWritten(r, sps, pps))
  {
    var headers := HeaderTags(r.sets + [ParameterSets(sps, pps)]);
    HeaderGrows(r.sets, sps, pps);
    PreambleIsTag();
    WriteThatFits(r.file, StreamBytes(headers));
    EmptyBody(HeaderWritten(r, sps, pps));
    assert PREAMBLE + StreamBytes(headers) + [] == PREAMBLE + StreamBytes(headers);
  }

  /** Packets pushed later do not change those written. */
  lemma BodyKept(r: Recorder, t: Recorder)
    requires r.start == t.start <= |r.h.out| && OutBelow(r.h) && t.h.out == r.h.out && r.h.pushed <= t.h.pushed
    ensures OutBelow(t.h) && Body(t) == Body(r)
  {
  }

  lemma ElsewhereKeepsOut(h: State, a: Step)
    requires Inv(h) && IsElsewhere(a) && Enabled(h, a)
    ensures Apply(h, a).out == h.out && h.pushed <= Apply(h, a).pushed
    ensures h.consumer.Away? ==> Apply(h, a).consumer.Away?
  {
  }

  /** The steps of the flush pass on whether a key frame was asked for and whether something was written. */
  predicate PassedOn(c: Consumer, d: Consumer) {
    match d
    case Away => c.Away?
    case Fetching(key, _) => c == d
    case Taking(key, _, _) => (c.Taking? && c.key == key) || (c.Fetching? && c.key == key)
    case Looking(key, _) => c == d || (c.Taking? && c.key == key) || (c.Fetching? && c.key == key)
    case Located(_, _, _) => c == d || (c.Looking? && c.key)
    case Chosen(_, _, key, _, _) => c == d || (c.Looking? && c.key == key) || (c.Located? && key)
    case Clearing(_, _) => c == d
    case Back(ok, reported) => c == d || (ok && reported.None?) || (c.Clearing? && c.ok == ok)
  }

  lemma ElsewherePassesOn(h: State, a: Step)
    requires Inv(h) && IsElsewhere(a) && Enabled(h, a)
    ensures PassedOn(h.consumer, Apply(h, a).consumer)
  {
    if ByProducer(a) {
      ThreadsDoNotMeet(h, a);
    }
  }

  lemma PassedOnKeeps(r: Recorder, t: Recorder)
    requires Shapely(r) && r.phase == Looping && t == r.(h := t.h) && t.h.out == r.h.out && r.h.pushed <= t.h.pushed
    requires PassedOn(r.h.consumer, t.h.consumer)
    ensures Shapely(t)
  {
    BodyKept(r, t);
  }

  lemma ElsewhereKeeps(r: Recorder, a: Step)
    requires RecorderOk(r) && Possible(r, Elsewhere(a))
    ensures RecorderOk(r.(h := Apply(r.h, a)))
  {
    StepKeeps(r.h, a);
    var t := r.(h := Apply(r.h, a));
    ElsewhereKeepsOut(r.h, a);
    if r.phase == Looping {
      ElsewherePassesOn(r.h, a);
      PassedOnKeeps(r, t);
    } else {
      BodyKept(r, t);
    }
  }

  lemma IndicesGive(pushed: seq<Tag>, a: nat, b: nat)
    requires a <= b <= |pushed|
    ensures PacketsAt(pushed, Indices(a, b)) == pushed[a..b]
  {
  }

  lemma PacketsConcat(pushed: seq<Tag>, xs: seq<nat>, ys: seq<nat>)
    requires forall i :: 0 <= i < |xs| ==> xs[i] < |pushed|
    requires forall i :: 0 <= i < |ys| ==> ys[i] < |pushed|
    ensures forall i :: 0 <= i < |xs + ys| ==> (xs + ys)[i] < |pushed|
    ensures PacketsAt(pushed, xs + ys) == PacketsAt(pushed, xs) + PacketsAt(pushed, ys)
  {
  }

  /** A flush the file accepts adds the packets from the position on to the body. */
  lemma BodyGrows(r: Recorder, t: Recorder, from: nat, hi: nat)
    requires r.start == t.start <= |r.h.out| && OutBelow(r.h) && from <= hi <= |r.h.pushed| && t.h.pushed == r.h.pushed
    requires t.h.out == r.h.out + Indices(from, hi)
    ensures OutBelow(t.h) && Body(t) == Body(r) + r.h.pushed[from..hi]
  {
    IndicesGive(r.h.pushed, from, hi);
    PacketsConcat(r.h.pushed, r.h.out[r.start..], Indices(from, hi));
    assert t.h.out[t.start..] == r.h.out[r.start..] + Indices(from, hi);
  }

  lemma StreamsJoined(before: seq<Byte>, body: seq<Tag>, more: seq<Tag>)
    ensures before + StreamBytes(body + more) == before + StreamBytes(body) + StreamBytes(more)
  {
    StreamConcat(body, more);
  }

  lemma AcceptedKeeps(r: Recorder, t: Recorder, from: nat, hi: nat)
    requires Shapely(r) && r.phase == Looping && from < hi <= |r.h.pushed| && (r.curDur == 0 ==> IsKey(r.h.pushed[from]))
    requires t == r.(h := t.h, file := t.file) && t.h.pushed == r.h.pushed && t.h.consumer.Clearing?
    requires t.h.out == r.h.out + Indices(from, hi)
    requires FileOk(t.file) && t.file.signed && t.file.named && t.file.limit == CAPACITY
    requires Contents(t.file) == Contents(r.file) + StreamBytes(r.h.pushed[from..hi])
    ensures Shapely(t)
  {
    BodyGrows(r, t, from, hi);
    StreamsJoined(PREAMBLE + StreamBytes(HeaderTags(r.sets)), Body(r), r.h.pushed[from..hi]);
  }

  /** A flush the file refuses leaves it as it is. */
  lemma RefusedKeeps(r: Recorder, t: Recorder)
    requires Shapely(r) && r.phase == Looping && t == r.(h := t.h) && t.h.out == r.h.out && t.h.pushed == r.h.pushed
    requires t.h.consumer.Clearing? && !t.h.consumer.ok
    ensures Shapely(t)
  {
    BodyKept(r, t);
  }

  lemma FileWrittenKeeps(r: Recorder)
    requires RecorderOk(r) && Possible(r, WriteFile)
    ensures RecorderOk(FileWritten(r))
  {
    WriteKeeps(r.h, WriteTo(r.file, Written(r.h).0).1 != OUT_OF_BUFFER);
    FileWrittenKeepsShape(r);
  }

  lemma FileWrittenKeepsShape(r: Recorder)
    requires RecorderOk(r) && Possible(r, WriteFile)
    ensures Shapely(FileWritten(r))
  {
    var t := FileWritten(r);
    var from, hi := r.h.consumer.from, r.h.hi[TEMP];
    WrittenIsPackets(r.h);
    if r.file.current + |StreamBytes(r.h.pushed[from..hi])| <= r.file.limit {
      WriteThatFits(r.file, StreamBytes(r.h.pushed[from..hi]));
      AcceptedKeeps(r, t, from, hi);
    } else {
      RefusedKeeps(r, t);
    }
  }

  lemma FinishKeepsLoop(r: Recorder, overtime: bool)
    requires r.start <= |r.h.out| && LoopOk(r) && r.h.consumer.Back? && Finished(r, overtime).phase == Looping
    ensures LoopOk(Finished(r, overtime))
  {
  }

  lemma FinishKeepsFile(r: Recorder, overtime: bool)
    requires Shapely(r) && Possible(r, Finish(overtime))
    ensures var t := Finished(r, overtime);
            && t.start <= |t.h.out| && OutBelow(t.h) && SetsOk(t.sets) && FileOk(t.file) && FileShaped(t)
            && t.h.consumer.Away? && (t.phase == Off || t.phase == Looping)
  {
    BodyKept(r, Finished(r, overtime));
  }

  lemma FinishKeepsShape(r: Recorder, overtime: bool)
    requires Shapely(r) && Possible(r, Finish(overtime))
    ensures Shapely(Finished(r, overtime))
  {
    FinishKeepsFile(r, overtime);
    if Finished(r, overtime).phase == Looping {
      FinishKeepsLoop(r, overtime);
    }
  }

  lemma FinishKeeps(r: Recorder, overtime: bool)
    requires RecorderOk(r) && Possible(r, Finish(overtime))
    ensures RecorderOk(Finished(r, overtime))
  {
    ReturnKeeps(r.h);
    FinishKeepsShape(r, overtime);
  }

  lemma CallFlushKeepsShape(r: Recorder)
    requires Shapely(r) && Possible(r, CallFlush)
    ensures Shapely(FlushCalled(r))
  {
    BodyKept(r, FlushCalled(r));
  }

  lemma CallFlushKeepsBuffers(r: Recorder)
    requires Inv(r.h) && CanCall(r.h)
    ensures Inv(FlushCalled(r).h)
  {
    CallKeeps(r.h, r.curDur == 0, r.maxDur - r.curDur);
  }

  lemma CallFlushKeeps(r: Recorder)
    requires RecorderOk(r) && Possible(r, CallFlush)
    ensures RecorderOk(FlushCalled(r))
  {
    CallFlushKeepsBuffers(r);
    CallFlushKeepsShape(r);
  }

  lemma StopKeeps(r: Recorder)
    requires Shapely(r) && Possible(r, Stop)
    ensures Shapely(r.(phase := Off))
  {
    BodyKept(r, r.(phase := Off));
  }

  lemma RemoveKeeps(r: Recorder)
    requires Shapely(r) && Possible(r, Remove)
    ensures Shapely(r.(file := Erase(r.file)))
  {
    BodyKept(r, r.(file := Erase(r.file)));
  }

  lemma BeginningStepKeeps(r: Recorder, e: RecorderStep)
    requires RecorderOk(r) && Possible(r, e) && (e.Open? || e.WritePreamble? || e.WriteHeader?)
    ensures RecorderOk(Next(r, e))
  {
    match e
    case Open(maxDur) => OpenKeeps(r, maxDur);
    case WritePreamble => PreambleKeeps(r);
    case WriteHeader(sps, pps) => HeaderKeeps(r, sps, pps);
  }

  lemma CallStepKeeps(r: Recorder)
    requires RecorderOk(r) && Possible(r, CallFlush)
    ensures RecorderOk(Next(r, CallFlush))
  {
    CallFlushKeeps(r);
  }

  lemma WriteStepKeeps(r: Recorder)
    requires RecorderOk(r) && Possible(r, WriteFile)
    ensures RecorderOk(Next(r, WriteFile))
  {
    FileWrittenKeeps(r);
  }

  lemma EndingStepKeeps(r: Recorder, e: RecorderStep)
    requires RecorderOk(r) && Possible(r, e) && (e.Finish? || e.Stop? || e.Remove?)
    ensures RecorderOk(Next(r, e))
  {
    match e
    case Finish(overtime) => FinishKeeps(r, overtime);
    case Stop => StopKeeps(r);
    case Remove => RemoveKeeps(r);
  }

  lemma ElsewhereStepKeeps(r: Recorder, a: Step)
    requires RecorderOk(r) && Possible(r, Elsewhere(a))
    ensures RecorderOk(Next(r, Elsewhere(a)))
  {
    ElsewhereKeeps(r, a);
  }

  /** Every step of the recorder and of both threads keeps the shape of the file. */
  lemma NextKeeps(r: Recorder, e: RecorderStep)
    requires RecorderOk(r) && Possible(r, e)
    ensures RecorderOk(Next(r, e))
  {
    if e.Elsewhere? {
      ElsewhereStepKeeps(r, e.a);
    } else if e.CallFlush? {
      CallStepKeeps(r);
    } else if e.WriteFile? {
      WriteStepKeeps(r);
    } else if e.Finish? || e.Stop? || e.Remove? {
      EndingStepKeeps(r, e);
    } else {
      BeginningStepKeeps(r, e);
    }
  }

  // Runs.

  type Recording = r: Recorder | RecorderOk(r) witness (StartIsOk(0); NoRecording(0))

  function NoRecording(max: nat): Recorder {
    Recorder(Start(max), Off, 0, 0, File(false, false, seq(CAPACITY, _ => 0), 0, 0), [], 0)
  }

  /** The state after a run of recorder and threads; none if some step was not possible. */
  function Reaches(r: Recording, steps: seq<RecorderStep>): Option<Recording> {
    if steps == [] then Some(r)
    else
      match Reaches(r, steps[..|steps| - 1])
      case None => None
      case Some(m) =>
        var e := steps[|steps| - 1];
        if !Possible(m, e) then None
        else
          NextKeeps(m, e);
          var n: Recording := Next(m, e);
          Some(n)
  }

  /** The tags behind the file header. */
  function FileTags(r: Recorder): seq<Tag>
    requires r.start <= |r.h.out| && OutBelow(r.h)
  {
    [SCRIPT_TAG] + HeaderTags(r.sets) + Body(r)
  }

  lemma CutBehind(bin: seq<Byte>, n: nat, first: seq<Byte>, rest: seq<Byte>)
    requires n <= |bin| && bin[..n] == first + rest
    ensures |first| <= n && bin[..|first|] == first && bin[|first|..n] == rest
  {
    assert bin[..|first|] == bin[..n][..|first|];
    assert bin[|first|..n] == bin[..n][|first|..];
  }

  lemma Regrouped(a: seq<Byte>, b: seq<Byte>, c: seq<Byte>, d: seq<Byte>)
    ensures a + b + c + d == a + (b + c + d)
  {
  }

  /** Header bytes, then the bytes of three parts. */
  lemma PartsBehind(bin: seq<Byte>, n: nat, first: seq<Byte>, one: seq<Tag>, two: seq<Tag>, three: seq<Tag>)
    requires n <= |bin|
    requires bin[..n] == first + StreamBytes(one) + StreamBytes(two) + StreamBytes(three)
    ensures |first| <= n && bin[..|first|] == first && bin[|first|..n] == StreamBytes(one + two + three)
  {
    StreamConcat(one + two, three);
    StreamConcat(one, two);
    Regrouped(first, StreamBytes(one), StreamBytes(two), StreamBytes(three));
    CutBehind(bin, n, first, StreamBytes(one + two + three));
  }

  lemma CompleteIsTags(r: Recorder)
    requires RecorderOk(r) && r.file.signed && Complete(r)
    ensures 13 <= r.file.current && r.file.bin[..13] == FLV_HEADER
    ensures Holds(r.file.bin, 13, r.file.current, FileTags(r))
  {
    PreambleIsTag();
    StreamOne(SCRIPT_TAG);
    TagsOk(r);
    PartsBehind(r.file.bin, r.file.current, FLV_HEADER, [SCRIPT_TAG], HeaderTags(r.sets), Body(r));
  }

  lemma TagsOk(r: Recorder)
    requires RecorderOk(r)
    ensures AllOk(FileTags(r))
  {
    assert TagOk(SCRIPT_TAG);
  }

  lemma CompleteReadsBack(r: Recorder)
    requires RecorderOk(r) && r.file.signed && Complete(r)
    ensures r.file.bin[..13] == FLV_HEADER && Whole(r.file.bin, 13, r.file.current)
    ensures TagsIn(r.file.bin, 13, r.file.current) == FileTags(r)
  {
    CompleteIsTags(r);
    TagsComeBack(r.file.bin, 13, r.file.current, FileTags(r));
  }

  /** After any run, a file that is being recorded, or was and is not empty or cut off at the headers, is the FLV header
      and then, tag after tag, the script data, AVC header tags and packets that were pushed: in the order they were
      pushed, each at most once in all recordings, and beginning with a key frame. Reading it back gives these tags. And a
      recording that has counted anything goes on only below the length it should have. */
  lemma EveryFileIsShaped(start: Recording, steps: seq<RecorderStep>)
    requires Reaches(start, steps).Some?
    ensures var r := Reaches(start, steps).value;
            && Increasing(r.h.out)
            && (r.phase == Looping ==> Complete(r) && (r.curDur > 0 ==> r.curDur < r.maxDur))
            && (r.phase == Off && r.file.signed && r.file.named ==>
                  Contents(r.file) == [] || Contents(r.file) == PREAMBLE || Complete(r))
            && (r.file.signed && Complete(r) ==>
                  && r.file.bin[..13] == FLV_HEADER
                  && Whole(r.file.bin, 13, r.file.current)
                  && TagsIn(r.file.bin, 13, r.file.current) == [SCRIPT_TAG] + HeaderTags(r.sets) + Body(r)
                  && (Body(r) != [] ==> IsKey(Body(r)[0])))
  {
    var r := Reaches(start, steps).value;
    if r.file.signed && Complete(r) {
      CompleteReadsBack(r);
    }
  }

  /** A run may begin with new buffers and no file. */
  lemma StartsSound(max: nat)
    ensures RecorderOk(NoRecording(max))
  {
    StartIsOk(max);
  }
}
