/** Where the ranges of the parameter sets found in a frame can leave it: exactly when, on any frame. */
module FlvRanges {
  import opened CInt
  import opened FlvNal

  predicate RangesInside(frame: seq<Byte>, info: FrameInfo) {
    info.spsOffset + info.spsLen <= |frame| && info.ppsOffset + info.ppsLen <= |frame|
  }

  // The start codes of a frame, and the condition on them.

  /** A start code and the type of the unit behind it. */
  datatype Mark = Mark(at: nat, kind: nat)

  function Marks(frame: seq<Byte>, p: nat): seq<Mark>
    decreases |frame| - p
  {
    if p + 4 >= |frame| then []
    else if StartCode(frame, p) then [Mark(p, frame[p + 4] % 32)] + Marks(frame, p + 1)
    else Marks(frame, p + 1)
  }

  predicate IsSet(kind: nat) {
    kind == SPS || kind == PPS
  }

  predicate IsSlice(kind: nat) {
    kind == IDR || kind == SLICE
  }

  predicate Slices(marks: seq<Mark>) {
    marks != [] && (IsSlice(marks[0].kind) || Slices(marks[1..]))
  }

  predicate Has(marks: seq<Mark>, kind: nat) {
    marks != [] && (marks[0].kind == kind || Has(marks[1..], kind))
  }

  /** Where the next parameter set of either kind begins, or else the end. */
  function NextSet(marks: seq<Mark>, end: nat): nat {
    if marks == [] then end else if IsSet(marks[0].kind) then marks[0].at else NextSet(marks[1..], end)
  }

  /** How far the last parameter set of a kind stretches: to the next one of either kind, or to the end. */
  function Stretch(marks: seq<Mark>, kind: nat, end: nat): int {
    if marks == [] then 0
    else if Has(marks[1..], kind) then Stretch(marks[1..], kind, end)
    else if marks[0].kind == kind then NextSet(marks[1..], end) - marks[0].at
    else 0
  }

  /** The length that a parameter set at the very end is taken to have: that of the last one of its kind before it. */
  function LengthAtEnd(marks: seq<Mark>): int
    requires marks != []
  {
    var n := |marks| - 1;
    Stretch(marks[..n], marks[n].kind, marks[n].at)
  }

  /** The frame ends with a parameter set, not sliced, for which the length taken over is too long. */
  predicate Overruns(frame: seq<Byte>)
    requires |frame| >= 5
  {
    var marks := Marks(frame, 0);
    && !IsSlice(frame[4] % 32) && !Slices(marks)
    && marks != [] && IsSet(marks[|marks| - 1].kind)
    && marks[|marks| - 1].at + LengthAtEnd(marks) > |frame|
  }

  // The scan meets the start codes.

  predicate Ascending(marks: seq<Mark>, p: nat, end: nat) {
    marks != [] ==> p <= marks[0].at < end && Ascending(marks[1..], marks[0].at + 1, end)
  }

  function MeetMarks(marks: seq<Mark>, p: nat, len: nat, w: Walk): Walk
    requires Ascending(marks, p, len) && WalkOk(w, p)
    decreases |marks|
  {
    if marks == [] || w.done then w
    else MeetMarks(marks[1..], marks[0].at + 1, len, Meet(w, marks[0].kind, marks[0].at, len))
  }

  lemma {:induction false} AscendingFrom(marks: seq<Mark>, p: nat, q: nat, end: nat)
    requires Ascending(marks, q, end) && p <= q
    ensures Ascending(marks, p, end)
  {
  }

  lemma {:induction false} MarksAscend(frame: seq<Byte>, p: nat)
    ensures Ascending(Marks(frame, p), p, |frame|)
    decreases |frame| - p
  {
    if p + 4 < |frame| {
      MarksAscend(frame, p + 1);
      AscendingFrom(Marks(frame, p + 1), p, p + 1, |frame|);
    }
  }

  lemma MeetFrom(marks: seq<Mark>, p: nat, q: nat, len: nat, w: Walk)
    requires p <= q && Ascending(marks, q, len) && Ascending(marks, p, len) && WalkOk(w, p)
    ensures MeetMarks(marks, p, len, w) == MeetMarks(marks, q, len, w)
  {
  }

  lemma {:induction false} ScanMeetsMarks(frame: seq<Byte>, p: nat, w: Walk)
    requires WalkOk(w, p)
    ensures Ascending(Marks(frame, p), p, |frame|)
    ensures ScanUnits(frame, p, w) == MeetMarks(Marks(frame, p), p, |frame|, w)
    decreases |frame| - p
  {
    MarksAscend(frame, p);
    if !w.done && p + 4 < |frame| {
      MarksAscend(frame, p + 1);
      if StartCode(frame, p) {
        ScanMeetsMarks(frame, p + 1, Meet(w, frame[p + 4] % 32, p, |frame|));
      } else {
        ScanMeetsMarks(frame, p + 1, w);
        MeetFrom(Marks(frame, p + 1), p, p + 1, |frame|, w);
      }
    }
  }

  // What the scan makes of start codes without a slice: the lengths.

  function CurrentOf(kind: nat): Current
    requires IsSet(kind)
  {
    if kind == SPS then Sps else Pps
  }

  function OffsetOf(info: FrameInfo, kind: nat): nat
    requires IsSet(kind)
  {
    if kind == SPS then info.spsOffset else info.ppsOffset
  }

  function LenOf(info: FrameInfo, kind: nat): nat
    requires IsSet(kind)
  {
    if kind == SPS then info.spsLen else info.ppsLen
  }

  /** The length a set of the kind would have if the next start code came at q. */
  function LenAt(w: Walk, kind: nat, q: nat): int
    requires IsSet(kind)
  {
    if w.current == CurrentOf(kind) then q - OffsetOf(w.info, kind) else LenOf(w.info, kind)
  }

  /** And once more marks are met before q. */
  function LenAfter(w: Walk, marks: seq<Mark>, kind: nat, q: nat): int
    requires IsSet(kind)
  {
    if Has(marks, kind) then Stretch(marks, kind, q) else LenAt(w, kind, NextSet(marks, q))
  }

  lemma MeetChanges(w: Walk, k: nat, p: nat, len: nat, kind: nat, q: nat)
    requires WalkOk(w, p) && p <= len && !w.done && !IsSlice(k) && IsSet(kind)
    ensures var t := Meet(w, k, p, len);
            && !t.done && WalkOk(t, p) && t.info.key == w.info.key && t.info.inter == w.info.inter
            && LenAt(t, kind, q) == (if k == kind then q - p else if IsSet(k) then LenAt(w, kind, p) else LenAt(w, kind, q))
            && (IsSet(k) ==> OffsetOf(t.info, k) == p && LenOf(t.info, k) == LenAt(w, k, p))
            && (k != kind ==> OffsetOf(t.info, kind) == OffsetOf(w.info, kind))
  {
  }

  lemma {:induction false} LengthsAfter(marks: seq<Mark>, p: nat, len: nat, w: Walk, kind: nat, q: nat)
    requires Ascending(marks, p, len) && WalkOk(w, p) && !w.done && !Slices(marks) && IsSet(kind)
    ensures var r := MeetMarks(marks, p, len, w);
            !r.done && LenAt(r, kind, q) == LenAfter(w, marks, kind, q)
    decreases |marks|
  {
    if marks != [] {
      var met := Meet(w, marks[0].kind, marks[0].at, len);
      MeetChanges(w, marks[0].kind, marks[0].at, len, kind, NextSet(marks[1..], q));
      LengthsAfter(marks[1..], marks[0].at + 1, len, met, kind, q);
    }
  }

  /** Every range but the one still growing ends before p. */
  predicate Closed(w: Walk, p: nat) {
    && WalkOk(w, p)
    && ((w.current == Sps && !w.done) || w.info.spsOffset + w.info.spsLen <= p)
    && ((w.current == Pps && !w.done) || w.info.ppsOffset + w.info.ppsLen <= p)
  }

  lemma {:induction false} MeetStaysClosed(marks: seq<Mark>, p: nat, len: nat, w: Walk)
    requires Ascending(marks, p, len) && Closed(w, p) && p <= len
    ensures Closed(MeetMarks(marks, p, len, w), len)
    decreases |marks|
  {
    if marks != [] && !w.done {
      MeetStaysClosed(marks[1..], marks[0].at + 1, len, Meet(w, marks[0].kind, marks[0].at, len));
    }
  }

  lemma {:induction false} SliceEndsScan(marks: seq<Mark>, p: nat, len: nat, w: Walk)
    requires Ascending(marks, p, len) && WalkOk(w, p) && Slices(marks)
    ensures MeetMarks(marks, p, len, w).done
    decreases |marks|
  {
    if !w.done {
      var met := Meet(w, marks[0].kind, marks[0].at, len);
      if !IsSlice(marks[0].kind) {
        SliceEndsScan(marks[1..], marks[0].at + 1, len, met);
      }
    }
  }

  // The last start code.

  lemma {:induction false} AscendingSplit(marks: seq<Mark>, p: nat, end: nat)
    requires Ascending(marks, p, end) && marks != []
    ensures var n := |marks| - 1;
            Ascending(marks[..n], p, marks[n].at) && Ascending(marks[..n], p, end) && p <= marks[n].at < end
    decreases |marks|
  {
    if |marks| > 1 {
      var n := |marks| - 1;
      AscendingSplit(marks[1..], marks[0].at + 1, end);
      assert marks[..n][1..] == marks[1..][..n - 1];
    }
  }

  lemma {:induction false} NoSliceBefore(marks: seq<Mark>, n: nat)
    requires !Slices(marks) && n < |marks|
    ensures !Slices(marks[..n]) && !IsSlice(marks[n].kind)
    decreases |marks|
  {
    if n > 0 {
      NoSliceBefore(marks[1..], n - 1);
      assert marks[..n][1..] == marks[1..][..n - 1];
    }
  }

  lemma {:induction false} MeetLast(marks: seq<Mark>, p: nat, len: nat, w: Walk)
    requires Ascending(marks, p, len) && WalkOk(w, p) && !w.done && marks != [] && !Slices(marks) && p <= len
    ensures var n := |marks| - 1;
            && Ascending(marks[..n], p, len) && WalkOk(MeetMarks(marks[..n], p, len, w), marks[n].at) && marks[n].at <= len
            && MeetMarks(marks, p, len, w) == Meet(MeetMarks(marks[..n], p, len, w), marks[n].kind, marks[n].at, len)
    decreases |marks|
  {
    var n := |marks| - 1;
    AscendingSplit(marks, p, len);
    var met := Meet(w, marks[0].kind, marks[0].at, len);
    if n > 0 {
      MeetLast(marks[1..], marks[0].at + 1, len, met);
      assert marks[..n][1..] == marks[1..][..n - 1];
    }
  }

  /** The set of the kind begins at position at and is given a length; the other one lies inside. */
  predicate EndsWith(info: FrameInfo, kind: nat, at: nat, length: int, size: nat)
    requires IsSet(kind)
  {
    var other := if kind == SPS then PPS else SPS;
    && OffsetOf(info, kind) == at && LenOf(info, kind) == length && (if kind == SPS then info.sps else info.pps)
    && OffsetOf(info, other) + LenOf(info, other) <= size
  }

  /** On any start codes without a slice. */
  lemma MarksDecide(frame: seq<Byte>, marks: seq<Mark>)
    requires Ascending(marks, 0, |frame|) && !Slices(marks)
    ensures var r := MeetMarks(marks, 0, |frame|, Walk(Other, NOTHING, false));
            RangesInside(frame, r.info) <==>
            (marks == [] || !IsSet(marks[|marks| - 1].kind) || marks[|marks| - 1].at + LengthAtEnd(marks) <= |frame|)
    ensures var r := MeetMarks(marks, 0, |frame|, Walk(Other, NOTHING, false));
            marks != [] && IsSet(marks[|marks| - 1].kind) ==>
              EndsWith(r.info, marks[|marks| - 1].kind, marks[|marks| - 1].at, LengthAtEnd(marks), |frame|)
  {
    var start, len := Walk(Other, NOTHING, false), |frame|;
    if marks != [] {
      var n := |marks| - 1;
      var front, last := marks[..n], marks[n];
      AscendingSplit(marks, 0, len);
      NoSliceBefore(marks, n);
      MeetLast(marks, 0, len, start);
      var r := MeetMarks(front, 0, len, start);
      MeetFrontClosed(front, last.at, len, start);
      if IsSet(last.kind) {
        LengthsAfter(front, 0, len, start, last.kind, last.at);
        MeetChanges(r, last.kind, last.at, len, last.kind, last.at);
        if !Has(front, last.kind) {
          NoneIsZero(front, last.kind, last.at);
        }
      }
    }
  }

  lemma {:induction false} NoneIsZero(marks: seq<Mark>, kind: nat, end: nat)
    requires !Has(marks, kind)
    ensures Stretch(marks, kind, end) == 0
  {
  }

  /** The bound of the start codes does not matter to what they close. */
  lemma {:induction false} MeetFrontClosed(front: seq<Mark>, q: nat, len: nat, w: Walk)
    requires Ascending(front, 0, q) && Ascending(front, 0, len) && q <= len && Closed(w, 0) && !Slices(front) && !w.done
    ensures Closed(MeetMarks(front, 0, len, w), q)
  {
    MeetStaysClosed(front, 0, q, w);
    SameUnderBound(front, 0, q, len, w);
  }

  lemma {:induction false} SameUnderBound(marks: seq<Mark>, p: nat, q: nat, len: nat, w: Walk)
    requires Ascending(marks, p, q) && Ascending(marks, p, len) && WalkOk(w, p) && !Slices(marks)
    ensures MeetMarks(marks, p, q, w) == MeetMarks(marks, p, len, w)
    decreases |marks|
  {
    if marks != [] && !w.done {
      SameUnderBound(marks[1..], marks[0].at + 1, q, len, Meet(w, marks[0].kind, marks[0].at, len));
    }
  }

  /** On every frame: the ranges found lie inside it, unless it has no slice and ends with a parameter set that is shorter
      than the stretch of the last one of its kind before it. */
  lemma RangesInsideExactlyWhen(frame: seq<Byte>)
    requires |frame| >= 5
    ensures RangesInside(frame, Parsed(frame)) <==> !Overruns(frame)
  {
    var start, marks := Walk(Other, NOTHING, false), Marks(frame, 0);
    if !IsSlice(frame[4] % 32) {
      ScanMeetsMarks(frame, 0, start);
      if Slices(marks) {
        SliceEndsScan(marks, 0, |frame|, start);
        MeetStaysClosed(marks, 0, |frame|, start);
      } else {
        MarksDecide(frame, marks);
      }
    }
  }

  /** What is found in a frame whose last set overruns: that set, with the length taken over. */
  lemma OverrunIsLast(frame: seq<Byte>)
    requires |frame| >= 5 && Overruns(frame)
    ensures var marks := Marks(frame, 0);
            var last := marks[|marks| - 1];
            last.at < |frame| && EndsWith(Parsed(frame), last.kind, last.at, LengthAtEnd(marks), |frame|)
  {
    MarksAscend(frame, 0);
    AscendingSplit(Marks(frame, 0), 0, |frame|);
    ScanMeetsMarks(frame, 0, Walk(Other, NOTHING, false));
    MarksDecide(frame, Marks(frame, 0));
  }

  // Clean units: the condition on their types and sizes.

  function KindOf(unit: seq<Byte>): nat
    requires unit != []
  {
    unit[0] % 32
  }

  /** The start codes of a byte stream are those of its units. */
  function UnitMarks(units: seq<seq<Byte>>, p: nat): seq<Mark>
    requires AllClean(units)
  {
    if units == [] then [] else [Mark(p, KindOf(units[0]))] + UnitMarks(units[1..], p + |units[0]| + 4)
  }

  lemma {:induction false} NoMarksInside(frame: seq<Byte>, b: nat, unit: seq<Byte>, p: nat)
    requires Clean(unit) && b + |unit| + 4 <= |frame| && frame[b..b + |unit| + 4] == Framed(unit)
    requires b < p <= b + |unit| + 4
    ensures Marks(frame, p) == Marks(frame, b + |unit| + 4)
    decreases |frame| - p
  {
    if p < b + |unit| + 4 {
      if p + 4 < |frame| {
        OnlyAtBoundary(frame, b, unit, p);
      }
      NoMarksInside(frame, b, unit, p + 1);
    }
  }

  lemma FirstUnit(frame: seq<Byte>, p: nat, units: seq<seq<Byte>>)
    requires AllClean(units) && units != [] && p <= |frame| && frame[p..] == ByteStream(units)
    ensures var next := p + |units[0]| + 4;
            && next <= |frame| && frame[p..next] == Framed(units[0]) && frame[next..] == ByteStream(units[1..])
            && StartCode(frame, p) && p + 4 < |frame| && frame[p + 4] == units[0][0]
  {
    var r := Framed(units[0]);
    assert frame[p..][..|r|] == r && frame[p..][|r|..] == ByteStream(units[1..]);
    assert forall k :: 0 <= k < 5 ==> frame[p + k] == frame[p..][k] == r[k];
  }

  lemma {:induction false} MarksAreUnits(frame: seq<Byte>, p: nat, units: seq<seq<Byte>>)
    requires AllClean(units) && p <= |frame| && frame[p..] == ByteStream(units)
    ensures Marks(frame, p) == UnitMarks(units, p)
    decreases |units|
  {
    if units != [] {
      FirstUnit(frame, p, units);
      NoMarksInside(frame, p, units[0], p + 1);
      MarksAreUnits(frame, p + |units[0]| + 4, units[1..]);
    }
  }

  /** The size of the first units up to the next parameter set. */
  function SizeToNextSet(units: seq<seq<Byte>>): nat
    requires AllClean(units)
  {
    if units == [] || IsSet(KindOf(units[0])) then 0 else |units[0]| + 4 + SizeToNextSet(units[1..])
  }

  predicate HasKind(units: seq<seq<Byte>>, kind: nat)
    requires AllClean(units)
  {
    units != [] && (KindOf(units[0]) == kind || HasKind(units[1..], kind))
  }

  /** The last parameter set of a kind with what follows it up to the next one of either kind. */
  function StretchOf(units: seq<seq<Byte>>, kind: nat): nat
    requires AllClean(units)
  {
    if units == [] then 0
    else if HasKind(units[1..], kind) then StretchOf(units[1..], kind)
    else if KindOf(units[0]) == kind then |units[0]| + 4 + SizeToNextSet(units[1..])
    else 0
  }

  lemma {:induction false} UnitStretch(units: seq<seq<Byte>>, p: nat, kind: nat)
    requires AllClean(units)
    ensures Stretch(UnitMarks(units, p), kind, p + |ByteStream(units)|) == StretchOf(units, kind)
  {
    if units != [] {
      UnitKinds(units[1..], p + |units[0]| + 4, kind);
      UnitNextSet(units[1..], p + |units[0]| + 4);
      UnitStretch(units[1..], p + |units[0]| + 4, kind);
    }
  }

  lemma {:induction false} UnitKinds(units: seq<seq<Byte>>, p: nat, kind: nat)
    requires AllClean(units)
    ensures Has(UnitMarks(units, p), kind) <==> HasKind(units, kind)
  {
    if units != [] {
      UnitKinds(units[1..], p + |units[0]| + 4, kind);
    }
  }

  lemma {:induction false} UnitNextSet(units: seq<seq<Byte>>, p: nat)
    requires AllClean(units)
    ensures NextSet(UnitMarks(units, p), p + |ByteStream(units)|) == p + SizeToNextSet(units)
  {
    if units != [] {
      UnitNextSet(units[1..], p + |units[0]| + 4);
    }
  }

  lemma {:induction false} UnitSlices(units: seq<seq<Byte>>, p: nat)
    requires AllClean(units)
    ensures Slices(UnitMarks(units, p)) <==> FirstSlice(units) != 0
  {
    if units != [] {
      UnitSlices(units[1..], p + |units[0]| + 4);
    }
  }

  lemma {:induction false} CleanApart(units: seq<seq<Byte>>)
    requires AllClean(units) && units != []
    ensures AllClean(units[..|units| - 1]) && Clean(units[|units| - 1])
  {
    var n := |units| - 1;
    if n > 0 {
      CleanApart(units[1..]);
      assert units[..n][1..] == units[1..][..n - 1];
    }
  }

  lemma {:induction false} SizeApart(units: seq<seq<Byte>>)
    requires units != []
    ensures var n := |units| - 1; |ByteStream(units)| == |ByteStream(units[..n])| + |units[n]| + 4
  {
    var n := |units| - 1;
    if n > 0 {
      SizeApart(units[1..]);
      assert units[..n][1..] == units[1..][..n - 1];
    }
  }

  lemma {:induction false} MarksConcat(a: seq<seq<Byte>>, b: seq<seq<Byte>>, p: nat)
    requires AllClean(a) && AllClean(b) && AllClean(a + b)
    ensures UnitMarks(a + b, p) == UnitMarks(a, p) + UnitMarks(b, p + |ByteStream(a)|)
    decreases |a|
  {
    if a == [] {
      assert a + b == b;
      assert UnitMarks(a, p) + UnitMarks(b, p) == UnitMarks(b, p);
    } else {
      assert (a + b)[0] == a[0] && (a + b)[1..] == a[1..] + b;
      FirstMark(a, p);
      FirstMark(a + b, p);
      MarksConcat(a[1..], b, p + |a[0]| + 4);
      MarkFirst(Mark(p, KindOf(a[0])), UnitMarks(a[1..], p + |a[0]| + 4), UnitMarks(b, p + |ByteStream(a)|));
    }
  }

  lemma MarkApart(units: seq<seq<Byte>>, p: nat)
    requires AllClean(units) && units != [] && AllClean(units[..|units| - 1]) && Clean(units[|units| - 1])
    ensures var n := |units| - 1;
            UnitMarks(units, p) == UnitMarks(units[..n], p) + [Mark(p + |ByteStream(units[..n])|, KindOf(units[n]))]
  {
    var n := |units| - 1;
    var last := [units[n]];
    assert units == units[..n] + last && last[1..] == [];
    MarksConcat(units[..n], last, p);
    FirstMark(last, p + |ByteStream(units[..n])|);
  }

  lemma FirstMark(units: seq<seq<Byte>>, p: nat)
    requires AllClean(units) && units != []
    ensures UnitMarks(units, p) == [Mark(p, KindOf(units[0]))] + UnitMarks(units[1..], p + |units[0]| + 4)
    ensures |ByteStream(units)| == |units[0]| + 4 + |ByteStream(units[1..])|
  {
  }

  lemma MarkFirst(first: Mark, middle: seq<Mark>, last: seq<Mark>)
    ensures [first] + (middle + last) == [first] + middle + last
  {
  }

  /** For any clean units: inside unless there is no slice, the last unit is a parameter set, and it is shorter than the
      last one of its kind before it together with what stands between that and the next set. */
  lemma UnitsInsideExactlyWhen(units: seq<seq<Byte>>)
    requires AllClean(units) && units != []
    ensures var n := |units| - 1;
            && AllClean(units[..n]) && Clean(units[n]) && |ByteStream(units)| >= 5
            && (RangesInside(ByteStream(units), Parsed(ByteStream(units))) <==>
                FirstSlice(units) != 0 || !IsSet(KindOf(units[n]))
                || StretchOf(units[..n], KindOf(units[n])) <= |units[n]| + 4)
  {
    var frame, n := ByteStream(units), |units| - 1;
    assert frame[0..] == frame;
    StreamStart(units);
    MarksAreUnits(frame, 0, units);
    UnitSlices(units, 0);
    CleanApart(units);
    SizeApart(units);
    MarkApart(units, 0);
    UnitKinds(units[..n], 0, KindOf(units[n]));
    UnitStretch(units[..n], 0, KindOf(units[n]));
    assert UnitMarks(units, 0)[..|UnitMarks(units, 0)| - 1] == UnitMarks(units[..n], 0);
    if IsSlice(KindOf(units[0])) {
      FirstIsSlice(units);
    }
    RangesInsideExactlyWhen(frame);
  }

  lemma FirstIsSlice(units: seq<seq<Byte>>)
    requires AllClean(units) && units != [] && IsSlice(KindOf(units[0]))
    ensures FirstSlice(units) != 0
  {
  }

  /** Two picture parameter sets, the second one byte shorter: seven bytes from position 7 of a frame of thirteen. */
  lemma ShorterSetOverruns()
    ensures var frame := [0, 0, 0, 1, 8, 1, 1, 0, 0, 0, 1, 8, 1];
            && Parsed(frame) == NOTHING.(pps := true, ppsOffset := 7, ppsLen := 7)
            && |frame| == 13 && !RangesInside(frame, Parsed(frame))
  {
  }
}
