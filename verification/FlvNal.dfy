/** The scan of an H.264 frame (byte stream format, section B.1 of ITU-T H.264) for parameter sets and the first slice. */
module FlvNal {
  import opened CInt

  datatype FrameInfo = FrameInfo(sps: bool, pps: bool, key: bool, inter: bool, ipOffset: nat, ipLen: nat,
                                 spsOffset: nat, spsLen: nat, ppsOffset: nat, ppsLen: nat)

  const NOTHING := FrameInfo(false, false, false, false, 0, 0, 0, 0, 0, 0)

  datatype Current = Other | Sps | Pps

  /** The scan so far; done once a slice is met. */
  datatype Walk = Walk(current: Current, info: FrameInfo, done: bool)

  const SLICE := 1
  const IDR := 5
  const SPS := 7
  const PPS := 8

  predicate StartCode(frame: seq<Byte>, p: nat)
    requires p + 4 <= |frame|
  {
    frame[p] == 0 && frame[p + 1] == 0 && frame[p + 2] == 0 && frame[p + 3] == 1
  }

  /** Meeting a unit of the given type at p in a frame of len bytes. */
  function Meet(w: Walk, kind: nat, p: nat, len: nat): Walk
    requires w.info.spsOffset <= p <= len && w.info.ppsOffset <= p
  {
    var info := match w.current
      case Sps => w.info.(spsLen := p - w.info.spsOffset)
      case Pps => w.info.(ppsLen := p - w.info.ppsOffset)
      case Other => w.info;
    if kind == SPS then Walk(Sps, info.(spsOffset := p, sps := true), false)
    else if kind == PPS then Walk(Pps, info.(ppsOffset := p, pps := true), false)
    else if kind == IDR then Walk(w.current, info.(ipOffset := p, ipLen := len - p, key := true), true)
    else if kind == SLICE then Walk(w.current, info.(ipOffset := p, ipLen := len - p, inter := true), true)
    else Walk(w.current, info, false)
  }

  predicate WalkOk(w: Walk, p: nat) {
    w.info.spsOffset <= p && w.info.ppsOffset <= p
  }

  /** The scan from position p on. */
  function ScanUnits(frame: seq<Byte>, p: nat, w: Walk): Walk
    requires WalkOk(w, p)
    decreases |frame| - p
  {
    if w.done || p + 4 >= |frame| then w
    else ScanUnits(frame, p + 1, if StartCode(frame, p) then Meet(w, frame[p + 4] % 32, p, |frame|) else w)
  }

  /** A frame that starts with a slice is taken whole, without a scan. */
  function Parsed(frame: seq<Byte>): FrameInfo
    requires |frame| >= 5
  {
    if frame[4] % 32 == IDR then NOTHING.(ipLen := |frame|, key := true)
    else if frame[4] % 32 == SLICE then NOTHING.(ipLen := |frame|, inter := true)
    else ScanUnits(frame, 0, Walk(Other, NOTHING, false)).info
  }

  method ParseFrame(frame: seq<Byte>) returns (info: FrameInfo)
    requires |frame| >= 5
    ensures info == Parsed(frame)
  {
    info := NOTHING;
    if frame[4] % 32 == IDR {
      info := info.(ipLen := |frame|, key := true);
      return;
    } else if frame[4] % 32 == SLICE {
      info := info.(ipLen := |frame|, inter := true);
      return;
    }
    var p: nat, left, current := 0, |frame| - 4, Other;
    ghost var w := Walk(Other, NOTHING, false);
    while left > 0
      invariant p + left == |frame| - 4 && w == Walk(current, info, false) && WalkOk(w, p)
      invariant ScanUnits(frame, 0, Walk(Other, NOTHING, false)) == ScanUnits(frame, p, w)
    {
      if StartCode(frame, p) {
        w := Meet(w, frame[p + 4] % 32, p, |frame|);
        var kind := frame[p + 4] % 32;
        if current == Sps {
          info := info.(spsLen := p - info.spsOffset);
        } else if current == Pps {
          info := info.(ppsLen := p - info.ppsOffset);
        }
        if kind == SPS {
          current := Sps;
          info := info.(spsOffset := p, sps := true);
        } else if kind == PPS {
          current := Pps;
          info := info.(ppsOffset := p, pps := true);
        } else if kind == IDR {
          info := info.(ipOffset := p, ipLen := |frame| - p, key := true);
          assert ScanUnits(frame, p + 1, w) == w;
          break;
        } else if kind == SLICE {
          info := info.(ipOffset := p, ipLen := |frame| - p, inter := true);
          assert ScanUnits(frame, p + 1, w) == w;
          break;
        }
      }
      p := p + 1;
      left := left - 1;
    }
  }

  // Access units.

  /** Three bytes that could be read as part of a start code. */
  predicate Confusable(unit: seq<Byte>, i: nat)
    requires i + 2 < |unit|
  {
    unit[i] == 0 && unit[i + 1] == 0 && unit[i + 2] <= 1
  }

  /** What the standard's emulation prevention leaves of a unit, and no zero byte at the end. */
  predicate Clean(unit: seq<Byte>) {
    |unit| > 0 && unit[|unit| - 1] != 0 && forall i :: 0 <= i < |unit| - 2 ==> !Confusable(unit, i)
  }

  predicate AllClean(units: seq<seq<Byte>>) {
    units != [] ==> Clean(units[0]) && AllClean(units[1..])
  }

  function Framed(unit: seq<Byte>): (r: seq<Byte>)
    ensures |r| == |unit| + 4
  {
    [0, 0, 0, 1] + unit
  }

  /** The byte stream of some units, each behind its start code. */
  function ByteStream(units: seq<seq<Byte>>): seq<Byte> {
    if units == [] then [] else Framed(units[0]) + ByteStream(units[1..])
  }

  /** What the scan should find: the units are met one after the other, at their boundaries. */
  function MeetUnits(units: seq<seq<Byte>>, p: nat, len: nat, w: Walk): Walk
    requires AllClean(units) && WalkOk(w, p) && p + |ByteStream(units)| <= len
    decreases |units|
  {
    if units == [] || w.done then w
    else MeetUnits(units[1..], p + |units[0]| + 4, len, Meet(w, units[0][0] % 32, p, len))
  }

  /** No start code begins inside a unit or its start code. */
  lemma OnlyAtBoundary(frame: seq<Byte>, b: nat, unit: seq<Byte>, p: nat)
    requires Clean(unit) && b + |unit| + 4 <= |frame| && frame[b..b + |unit| + 4] == Framed(unit)
    requires b < p < b + |unit| + 4 && p + 4 <= |frame|
    ensures !StartCode(frame, p)
  {
    var r := Framed(unit);
    assert forall k :: 0 <= k < |r| ==> frame[b + k] == r[k];
    if p < b + 4 {
      assert frame[b + 3] == r[3] == 1;
    } else {
      var i := p - b - 4;
      assert frame[p] == r[i + 4] == unit[i];
      if i + 2 < |unit| {
        assert frame[p + 1] == r[i + 5] == unit[i + 1] && frame[p + 2] == r[i + 6] == unit[i + 2];
        assert !Confusable(unit, i);
      } else if i + 1 < |unit| {
        assert frame[p + 1] == r[i + 5] == unit[i + 1];
      }
    }
  }

  lemma {:induction false} NothingInside(frame: seq<Byte>, b: nat, unit: seq<Byte>, p: nat, w: Walk)
    requires Clean(unit) && b + |unit| + 4 <= |frame| && frame[b..b + |unit| + 4] == Framed(unit)
    requires b < p <= b + |unit| + 4 && WalkOk(w, p)
    ensures ScanUnits(frame, p, w) == ScanUnits(frame, b + |unit| + 4, w)
    decreases |frame| - p
  {
    if p < b + |unit| + 4 && p + 4 < |frame| && !w.done {
      OnlyAtBoundary(frame, b, unit, p);
      NothingInside(frame, b, unit, p + 1, w);
    }
  }

  /** Where the stream goes on, its first unit stands. */
  lemma UnitInFront(frame: seq<Byte>, p: nat, units: seq<seq<Byte>>)
    requires AllClean(units) && units != [] && p <= |frame| && frame[p..] == ByteStream(units)
    ensures var unit, next := units[0], p + |units[0]| + 4;
            && next <= |frame| && frame[p..next] == Framed(unit) && frame[next..] == ByteStream(units[1..])
            && Framed(unit)[4] == unit[0] && forall k :: 0 <= k < 5 ==> frame[p + k] == Framed(unit)[k]
  {
    var unit, next := units[0], p + |units[0]| + 4;
    assert frame[p..][..|unit| + 4] == frame[p..next];
    assert frame[p..][|unit| + 4..] == frame[next..];
    assert forall k :: 0 <= k < 5 ==> frame[p..next][k] == frame[p + k];
  }

  lemma ScanMeetsOne(frame: seq<Byte>, p: nat, units: seq<seq<Byte>>, w: Walk)
    requires AllClean(units) && units != [] && WalkOk(w, p) && !w.done
    requires p <= |frame| && frame[p..] == ByteStream(units)
    ensures var next, met := p + |units[0]| + 4, Meet(w, units[0][0] % 32, p, |frame|);
            next <= |frame| && WalkOk(met, next) && ScanUnits(frame, p, w) == ScanUnits(frame, next, met)
  {
    UnitInFront(frame, p, units);
    NothingInside(frame, p, units[0], p + 1, Meet(w, units[0][0] % 32, p, |frame|));
  }

  /** The scan of a byte stream meets exactly its units, whatever their number, sizes and types. */
  lemma {:induction false} ScanMeetsUnits(frame: seq<Byte>, p: nat, units: seq<seq<Byte>>, w: Walk)
    requires AllClean(units) && WalkOk(w, p) && p <= |frame| && frame[p..] == ByteStream(units)
    ensures ScanUnits(frame, p, w) == MeetUnits(units, p, |frame|, w)
    decreases |units|
  {
    if units != [] && !w.done {
      ScanMeetsOne(frame, p, units, w);
      UnitInFront(frame, p, units);
      ScanMeetsUnits(frame, p + |units[0]| + 4, units[1..], Meet(w, units[0][0] % 32, p, |frame|));
    }
  }

  /** The type of the first slice unit; 0 if there is none. */
  function FirstSlice(units: seq<seq<Byte>>): nat
    requires AllClean(units)
  {
    if units == [] then 0
    else if units[0][0] % 32 == IDR || units[0][0] % 32 == SLICE then units[0][0] % 32
    else FirstSlice(units[1..])
  }

  lemma {:induction false} MeetFirstSlice(units: seq<seq<Byte>>, p: nat, len: nat, w: Walk)
    requires AllClean(units) && WalkOk(w, p) && p + |ByteStream(units)| <= len
    requires !w.done && !w.info.key && !w.info.inter
    ensures var info := MeetUnits(units, p, len, w).info;
            && (info.key <==> FirstSlice(units) == IDR) && (info.inter <==> FirstSlice(units) == SLICE)
    decreases |units|
  {
    if units != [] {
      var met := Meet(w, units[0][0] % 32, p, len);
      if !met.done {
        MeetFirstSlice(units[1..], p + |units[0]| + 4, len, met);
      }
    }
  }

  lemma StreamStart(units: seq<seq<Byte>>)
    requires AllClean(units) && units != []
    ensures |ByteStream(units)| >= 5 && ByteStream(units)[4] == units[0][0]
  {
    assert Framed(units[0])[4] == units[0][0];
  }

  lemma StreamIsScanned(units: seq<seq<Byte>>)
    requires AllClean(units) && units != []
    ensures |ByteStream(units)| >= 5
    ensures var frame, kind := ByteStream(units), units[0][0] % 32;
            Parsed(frame) == if kind == IDR then NOTHING.(ipLen := |frame|, key := true)
                             else if kind == SLICE then NOTHING.(ipLen := |frame|, inter := true)
                             else MeetUnits(units, 0, |frame|, Walk(Other, NOTHING, false)).info
  {
    var frame := ByteStream(units);
    StreamStart(units);
    assert frame[0..] == frame;
    ScanMeetsUnits(frame, 0, units, Walk(Other, NOTHING, false));
  }

  /** A frame is flagged as a key frame if and only if its first slice is an IDR slice. */
  lemma KeyIffFirstSliceIsIdr(units: seq<seq<Byte>>)
    requires AllClean(units) && units != []
    ensures |ByteStream(units)| >= 5
    ensures var info := Parsed(ByteStream(units));
            && (info.key <==> FirstSlice(units) == IDR) && (info.inter <==> FirstSlice(units) == SLICE)
  {
    StreamIsScanned(units);
    if units[0][0] % 32 != IDR && units[0][0] % 32 != SLICE {
      MeetFirstSlice(units, 0, |ByteStream(units)|, Walk(Other, NOTHING, false));
    }
  }

  predicate HasType(unit: seq<Byte>, kind: nat) {
    |unit| > 0 && unit[0] % 32 == kind
  }

  lemma MeetOne(units: seq<seq<Byte>>, p: nat, len: nat, w: Walk)
    requires AllClean(units) && WalkOk(w, p) && p + |ByteStream(units)| <= len && units != [] && !w.done
    ensures MeetUnits(units, p, len, w)
            == MeetUnits(units[1..], p + |units[0]| + 4, len, Meet(w, units[0][0] % 32, p, len))
  {
  }

  lemma MeetOverwrites(w: Walk, n: nat, kind: nat, p: nat, len: nat)
    requires w.current == Sps && WalkOk(w, p) && p <= len
    ensures Meet(w.(info := w.info.(spsLen := n)), kind, p, len) == Meet(w, kind, p, len)
  {
  }

  lemma MeetOther(w: Walk, kind: nat, p: nat, len: nat)
    requires w.current == Sps && !w.done && WalkOk(w, p) && p <= len && kind !in {SPS, PPS, IDR, SLICE}
    ensures Meet(w, kind, p, len) == w.(info := w.info.(spsLen := p - w.info.spsOffset))
  {
  }

  lemma BytesAssociate(a: seq<Byte>, b: seq<Byte>, c: seq<Byte>)
    ensures a + (b + c) == (a + b) + c
  {
  }

  lemma {:induction false} CleanConcat(a: seq<seq<Byte>>, b: seq<seq<Byte>>)
    requires OthersOnly(a) && AllClean(b)
    ensures AllClean(a + b) && ByteStream(a + b) == ByteStream(a) + ByteStream(b)
  {
    if a == [] {
      assert a + b == b;
    } else {
      assert (a + b)[0] == a[0] && (a + b)[1..] == a[1..] + b;
      CleanConcat(a[1..], b);
      BytesAssociate(Framed(a[0]), ByteStream(a[1..]), ByteStream(b));
    }
  }

  predicate OthersOnly(units: seq<seq<Byte>>) {
    units != [] ==> Clean(units[0]) && units[0][0] % 32 !in {SPS, PPS, IDR, SLICE} && OthersOnly(units[1..])
  }

  /** The next unit sets the length again. */
  lemma LengthForgotten(rest: seq<seq<Byte>>, q: nat, len: nat, w: Walk, n: nat)
    requires AllClean(rest) && rest != [] && WalkOk(w, q) && q + |ByteStream(rest)| <= len
    requires w.current == Sps && !w.done
    ensures MeetUnits(rest, q, len, w.(info := w.info.(spsLen := n))) == MeetUnits(rest, q, len, w)
  {
    MeetOne(rest, q, len, w);
    MeetOne(rest, q, len, w.(info := w.info.(spsLen := n)));
    MeetOverwrites(w, n, rest[0][0] % 32, q, len);
  }

  lemma SkipOne(between: seq<seq<Byte>>, rest: seq<seq<Byte>>, p: nat, len: nat, w: Walk)
    requires OthersOnly(between) && between != [] && AllClean(between + rest) && WalkOk(w, p)
    requires p + |ByteStream(between + rest)| <= len && w.current == Sps && !w.done
    ensures var kind, next := between[0][0] % 32, p + |between[0]| + 4;
            && AllClean(between[1..] + rest) && next + |ByteStream(between[1..] + rest)| <= len
            && Meet(w, kind, p, len) == w.(info := w.info.(spsLen := p - w.info.spsOffset))
            && MeetUnits(between + rest, p, len, w) == MeetUnits(between[1..] + rest, next, len, Meet(w, kind, p, len))
  {
    assert (between + rest)[1..] == between[1..] + rest;
    MeetOther(w, between[0][0] % 32, p, len);
    MeetOne(between + rest, p, len, w);
  }

  /** While the sequence parameter set is current, units of other types only stretch it. */
  lemma {:induction false} MeetSkipped(between: seq<seq<Byte>>, rest: seq<seq<Byte>>, p: nat, q: nat, len: nat, w: Walk)
    requires OthersOnly(between) && AllClean(rest) && rest != [] && AllClean(between + rest) && WalkOk(w, p)
    requires q == p + |ByteStream(between)| && q + |ByteStream(rest)| <= len && p + |ByteStream(between + rest)| <= len
    requires w.current == Sps && !w.done
    ensures MeetUnits(between + rest, p, len, w) == MeetUnits(rest, q, len, w)
    decreases |between|
  {
    if between == [] {
      assert between + rest == rest;
    } else {
      var kind, next := between[0][0] % 32, p + |between[0]| + 4;
      SkipOne(between, rest, p, len, w);
      MeetSkipped(between[1..], rest, next, q, len, Meet(w, kind, p, len));
      LengthForgotten(rest, q, len, w, p - w.info.spsOffset);
    }
  }

  /** Parameter sets and slice are found exactly where they are; what stands between the sequence parameter set and
      the picture parameter set, such as supplemental information, counts as part of the former. */
  lemma AccessUnit(sps: seq<Byte>, between: seq<seq<Byte>>, pps: seq<Byte>, slice: seq<Byte>)
    requires Clean(sps) && OthersOnly(between) && Clean(pps) && Clean(slice)
    requires HasType(sps, SPS) && HasType(pps, PPS) && (HasType(slice, IDR) || HasType(slice, SLICE))
    ensures var units := [sps] + between + [pps, slice];
            var frame := ByteStream(units);
            && |frame| >= 5
            && var info := Parsed(frame);
               && info.sps && info.spsOffset == 0 && info.spsLen == |sps| + 4 + |ByteStream(between)|
               && info.pps && info.ppsOffset == info.spsLen && info.ppsLen == |pps| + 4
               && info.ipOffset == info.spsLen + info.ppsLen && info.ipLen == |slice| + 4 == |frame| - info.ipOffset
               && info.key == HasType(slice, IDR) && info.inter == HasType(slice, SLICE)
  {
    var units := [sps] + between + [pps, slice];
    var len := |ByteStream(units)|;
    assert AllClean([slice]) by { assert [slice][1..] == []; }
    assert AllClean([pps, slice]) by { assert [pps, slice][1..] == [slice]; }
    CleanConcat(between, [pps, slice]);
    assert units[1..] == between + [pps, slice];
    StreamIsScanned(units);
    var w := Meet(Walk(Other, NOTHING, false), SPS, 0, len);
    var q := |sps| + 4 + |ByteStream(between)|;
    assert [pps, slice][1..] == [slice] && [slice][1..] == [];
    assert ByteStream([slice]) == Framed(slice);
    assert ByteStream([pps, slice]) == Framed(pps) + Framed(slice);
    MeetOne(units, 0, len, Walk(Other, NOTHING, false));
    MeetSkipped(between, [pps, slice], |sps| + 4, q, len, w);
    MeetOne([pps, slice], q, len, w);
    MeetOne([slice], q + |pps| + 4, len, Meet(w, PPS, q, len));
  }
}
