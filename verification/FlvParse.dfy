/** The two scans over a buffer of FLV tags: for the first key frame, and for the duration. */
module FlvParse {
  import opened CInt
  import opened Options
  import opened Sequences
  import opened FlvTag

  // The search for a key frame.

  function FirstKey(mem: seq<Byte>, p: nat, end: nat): Option<nat>
    requires HeadersInside(mem, p, end)
    decreases end - p
  {
    if p >= end || !Fits(mem, p, end) then None
    else if mem[p] == VIDEO && mem[p + 11] / 16 == 1 then (if Sealed(mem, p) then Some(p) else None)
    else FirstKey(mem, NextTag(mem, p), end)
  }

  function SearchKey(mem: seq<Byte>, p: nat, end: nat): Option<nat>
    requires HeadersInside(mem, p, end)
  {
    if end < p + 15 then None else FirstKey(mem, p, end)
  }

  method Load24(data: array<Byte>, p: nat) returns (r: nat)
    requires p + 3 <= data.Length
    ensures r == Get24(data[..], p)
  {
    r := Word24(data[p], data[p + 1], data[p + 2]);
  }

  method Load32(data: array<Byte>, p: nat) returns (r: UInt32)
    requires p + 4 <= data.Length
    ensures r == Get32(data[..], p)
  {
    r := Word32(data[p], data[p + 1], data[p + 2], data[p + 3]);
  }

  method LoadStamp(data: array<Byte>, p: nat) returns (r: UInt32)
    requires p + 8 <= data.Length
    ensures r == Stamp(data[..], p)
  {
    r := Word32(data[p + 7], data[p + 4], data[p + 5], data[p + 6]);
  }

  method IFrameSearch(data: array<Byte>, from: nat, size: nat) returns (at: Option<nat>)
    requires HeadersInside(data[..], from, from + size)
    ensures at == SearchKey(data[..], from, from + size)
  {
    if size < 15 {
      return None;
    }
    var p, limit := from, from + size;
    while p < limit
      invariant from <= p && HeadersInside(data[..], p, limit)
      invariant FirstKey(data[..], from, limit) == FirstKey(data[..], p, limit)
      decreases limit - p
    {
      var kind := data[p];
      var dataSize := Load24(data, p + 1);
      if p + 11 + dataSize + 4 > limit {
        return None;
      }
      if kind == VIDEO && data[p + 11] / 16 == 1 {
        var q := p + dataSize + 11;
        var prevTagSize := Load32(data, q);
        return if prevTagSize == dataSize + 11 then Some(p) else None;
      }
      p := p + 11 + dataSize + 4;
    }
    return None;
  }

  /** The index of the first key-frame tag, or the number of tags. */
  function KeyIndex(tags: seq<Tag>): (k: nat)
    ensures k <= |tags| && (k < |tags| ==> IsKey(tags[k]))
    ensures forall i :: 0 <= i < k ==> !IsKey(tags[i])
  {
    if tags == [] || IsKey(tags[0]) then 0 else 1 + KeyIndex(tags[1..])
  }

  lemma KeyAt(mem: seq<Byte>, p: nat, q: nat)
    requires p < q <= |mem| && Whole(mem, p, q)
    ensures IsKey(TagAt(mem, p)) <==> mem[p] == VIDEO && mem[p + 11] / 16 == 1
  {
    if BodySize(mem, p) > 0 {
      assert TagAt(mem, p).body[0] == mem[p + 11];
    }
  }

  /** Where the first key-frame tag starts, if there is one. */
  function KeyFrom(mem: seq<Byte>, p: nat, end: nat): Option<nat>
    requires end <= |mem| && Whole(mem, p, end)
    decreases end - p
  {
    if p == end then None else if IsKey(TagAt(mem, p)) then Some(p) else KeyFrom(mem, NextTag(mem, p), end)
  }

  lemma {:induction false} SearchIsKeyFrom(mem: seq<Byte>, p: nat, end: nat)
    requires end <= |mem| && Whole(mem, p, end)
    ensures HeadersInside(mem, p, end) && FirstKey(mem, p, end) == KeyFrom(mem, p, end)
    decreases end - p
  {
    if p < end {
      KeyAt(mem, p, end);
      SearchIsKeyFrom(mem, NextTag(mem, p), end);
    }
  }

  lemma TagsAreReadable(mem: seq<Byte>, p: nat, end: nat, tags: seq<Tag>)
    requires Holds(mem, p, end, tags)
    ensures HeadersInside(mem, p, end)
  {
    TagsComeBack(mem, p, end, tags);
    SearchIsKeyFrom(mem, p, end);
  }

  /** The first k tags from p end at q, and the others go on from there. */
  predicate SplitAt(mem: seq<Byte>, p: nat, q: nat, end: nat, k: nat)
    requires end <= |mem| && Whole(mem, p, end)
  {
    && p <= q <= end && Whole(mem, p, q) && Whole(mem, q, end) && k <= |TagsIn(mem, p, end)|
    && TagsIn(mem, p, q) == TagsIn(mem, p, end)[..k] && TagsIn(mem, q, end) == TagsIn(mem, p, end)[k..]
  }

  lemma SplitOneEarlier(mem: seq<Byte>, p: nat, q: nat, end: nat, k: nat)
    requires p < end <= |mem| && Whole(mem, p, end) && SplitAt(mem, NextTag(mem, p), q, end, k)
    ensures SplitAt(mem, p, q, end, k + 1)
  {
    var rest := TagsIn(mem, NextTag(mem, p), end);
    assert Whole(mem, p, q);
    assert TagsIn(mem, p, end) == [TagAt(mem, p)] + rest;
    assert ([TagAt(mem, p)] + rest)[..k + 1] == [TagAt(mem, p)] + rest[..k];
    assert ([TagAt(mem, p)] + rest)[k + 1..] == rest[k..];
  }

  lemma {:induction false} KeyFromSplits(mem: seq<Byte>, p: nat, end: nat)
    requires end <= |mem| && Whole(mem, p, end)
    ensures var tags, at := TagsIn(mem, p, end), KeyFrom(mem, p, end);
            if KeyIndex(tags) == |tags| then at == None
            else at.Some? && SplitAt(mem, p, at.value, end, KeyIndex(tags))
    decreases end - p
  {
    if p < end {
      if IsKey(TagAt(mem, p)) {
        assert TagsIn(mem, p, p) == TagsIn(mem, p, end)[..0] && TagsIn(mem, p, end)[0..] == TagsIn(mem, p, end);
      } else {
        var next := NextTag(mem, p);
        KeyFromSplits(mem, next, end);
        assert TagsIn(mem, p, end)[1..] == TagsIn(mem, next, end);
        if KeyFrom(mem, next, end).Some? {
          SplitOneEarlier(mem, p, KeyFrom(mem, next, end).value, end, KeyIndex(TagsIn(mem, next, end)));
        }
      }
    }
  }

  /** On whole tags the search answers with the first key-frame tag, or with nothing if and only if there is none;
      the tags before the answer and from it on are the two parts of the tags. */
  lemma SearchFindsFirstKey(mem: seq<Byte>, p: nat, end: nat)
    requires end <= |mem| && Whole(mem, p, end)
    ensures HeadersInside(mem, p, end)
    ensures var tags, at := TagsIn(mem, p, end), SearchKey(mem, p, end);
            if KeyIndex(tags) == |tags| then at == None
            else at.Some? && SplitAt(mem, p, at.value, end, KeyIndex(tags))
  {
    SearchIsKeyFrom(mem, p, end);
    KeyFromSplits(mem, p, end);
  }

  // The scan for the duration.

  /** What the scan finds: the end of the data it vouches for, the last time stamp it read, the video tags it met. */
  datatype Scan = Scan(end: nat, last: UInt32, videos: nat, complete: bool)

  function ScanFrom(mem: seq<Byte>, p: nat, end: nat, first: UInt32, maxDur: int): (r: Scan)
    requires p < end && HeadersInside(mem, p, end)
    ensures p <= r.end <= end
    decreases end - p
  {
    var video := if mem[p] == VIDEO then 1 else 0;
    if !Fits(mem, p, end) || !Sealed(mem, p) then Scan(p, Stamp(mem, p), video, false)
    else if (maxDur > 0 && Sub32(Stamp(mem, p), first) >= maxDur) || NextTag(mem, p) >= end
    then Scan(end, Stamp(mem, p), video, true)
    else
      var rest := ScanFrom(mem, NextTag(mem, p), end, first, maxDur);
      rest.(videos := video + rest.videos)
  }

  /** Duration, size of the data to write, number of video tags, and the first time stamp if it is reported. */
  datatype Measure = Measure(duration: Int32, size: nat, videos: nat, ts: Option<UInt32>)

  function MeasureFrom(mem: seq<Byte>, p: nat, size: nat, maxDur: int): Measure
    requires HeadersInside(mem, p, p + size)
  {
    if size < 15 then Measure(0, size, 0, None)
    else
      var first := Stamp(mem, p);
      var scan := ScanFrom(mem, p, p + size, first, maxDur);
      Measure(ToInt32(Sub32(scan.last, first)), if scan.complete then size else scan.end - p, scan.videos,
              if scan.complete then Some(first) else None)
  }

  /** The checks on the tag at p: inside the limit, and sealed. */
  method CheckTag(data: array<Byte>, p: nat, limit: nat) returns (sound: bool, next: nat)
    requires p < limit && HeadersInside(data[..], p, limit)
    ensures next == NextTag(data[..], p)
    ensures sound <==> Fits(data[..], p, limit) && Sealed(data[..], p)
  {
    var dataSize := Load24(data, p + 1);
    next := p + 11 + dataSize + 4;
    if next > limit {
      sound := false;
    } else {
      var q := p + dataSize + 11;
      var prevTagSize := Load32(data, q);
      sound := prevTagSize == dataSize + 11;
    }
  }

  /** The loop of the scan; the data it vouches for ends at the limit unless a tag is unsound. */
  method ScanTags(data: array<Byte>, from: nat, limit: nat, firstTs: UInt32, maxDur: int) returns (r: Scan)
    requires from < limit && HeadersInside(data[..], from, limit)
    ensures r == ScanFrom(data[..], from, limit, firstTs, maxDur)
  {
    var p := from;
    var videos: nat := 0;
    var curTs: UInt32 := 0;
    ghost var mem := data[..];
    ghost var whole := ScanFrom(mem, from, limit, firstTs, maxDur);
    ghost var left := whole;
    while p < limit
      invariant from <= p && HeadersInside(mem, p, limit)
      invariant whole == left.(videos := videos + left.videos)
      invariant left == if p < limit then ScanFrom(mem, p, limit, firstTs, maxDur) else Scan(limit, curTs, 0, true)
      decreases limit - p
    {
      if data[p] == VIDEO {
        videos := videos + 1;
      }
      curTs := LoadStamp(data, p);
      var sound, next := CheckTag(data, p, limit);
      if !sound {
        return Scan(p, curTs, videos, false);
      }
      p := next;
      if maxDur > 0 && Sub32(curTs, firstTs) >= maxDur {
        break;
      }
      left := if p < limit then ScanFrom(mem, p, limit, firstTs, maxDur) else Scan(limit, curTs, 0, true);
    }
    return Scan(limit, curTs, videos, true);
  }

  method DurationGet(data: array<Byte>, from: nat, size: nat, maxDur: int) returns (r: Measure)
    requires HeadersInside(data[..], from, from + size)
    ensures r == MeasureFrom(data[..], from, size, maxDur)
  {
    if size < 15 {
      return Measure(0, size, 0, None);
    }
    var firstTs := LoadStamp(data, from);
    var scan := ScanTags(data, from, from + size, firstTs, maxDur);
    var duration := ToInt32(Sub32(scan.last, firstTs));
    if !scan.complete {
      return Measure(duration, scan.end - from, scan.videos, None);
    }
    return Measure(duration, size, scan.videos, Some(firstTs));
  }

  // What the scan means.

  /** Without a limit the scan vouches for the longest stretch of whole tags, on any bytes. */
  lemma {:induction false} ScanIsLongestWhole(mem: seq<Byte>, p: nat, end: nat, first: UInt32, q: nat)
    requires p < end && HeadersInside(mem, p, end)
    ensures var r := ScanFrom(mem, p, end, first, 0);
            && p <= r.end <= end && Whole(mem, p, r.end)
            && (r.complete <==> r.end == end)
            && (p <= q <= end && Whole(mem, p, q) ==> q <= r.end)
    decreases end - p
  {
    if Fits(mem, p, end) && Sealed(mem, p) {
      if NextTag(mem, p) < end {
        ScanIsLongestWhole(mem, NextTag(mem, p), end, first, q);
      }
    }
  }

  function VideoCount(tags: seq<Tag>): nat {
    if tags == [] then 0 else (if tags[0].kind == VIDEO then 1 else 0) + VideoCount(tags[1..])
  }

  lemma {:induction false} ScanOfTags(mem: seq<Byte>, p: nat, end: nat, first: UInt32, maxDur: int)
    requires p < end <= |mem| && Whole(mem, p, end)
    ensures HeadersInside(mem, p, end)
    ensures var r, tags := ScanFrom(mem, p, end, first, maxDur), TagsIn(mem, p, end);
            && tags != [] && r.end == end && r.complete
            && (maxDur <= 0 ==> r.last == tags[|tags| - 1].stamp && r.videos == VideoCount(tags))
    decreases end - p
  {
    if NextTag(mem, p) < end {
      ScanOfTags(mem, NextTag(mem, p), end, first, maxDur);
    }
  }

  /** Whole tags are measured whole: the size is never cut, with or without a duration limit; without one, the
      duration is from the first to the last time stamp and every video tag is counted. */
  lemma MeasureOfTags(mem: seq<Byte>, p: nat, end: nat, maxDur: int)
    requires p < end <= |mem| && Whole(mem, p, end)
    ensures HeadersInside(mem, p, end)
    ensures var r, tags := MeasureFrom(mem, p, end - p, maxDur), TagsIn(mem, p, end);
            && tags != [] && r.size == end - p && r.ts == Some(tags[0].stamp)
            && (maxDur <= 0 ==> r.videos == VideoCount(tags)
                                && r.duration == ToInt32(Sub32(tags[|tags| - 1].stamp, tags[0].stamp)))
  {
    ScanOfTags(mem, p, end, Stamp(mem, p), maxDur);
  }

  /** Tag k is the first whose time stamp is maxDur or more after first, or the last tag. */
  predicate Reaches(tags: seq<Tag>, first: UInt32, maxDur: int, k: nat)
    requires k < |tags|
  {
    && (forall i :: 0 <= i < k ==> Sub32(tags[i].stamp, first) < maxDur)
    && (Sub32(tags[k].stamp, first) >= maxDur || k == |tags| - 1)
  }

  lemma ReachesLater(tags: seq<Tag>, first: UInt32, maxDur: int, k: nat)
    requires 0 < k < |tags| && Reaches(tags, first, maxDur, k)
    ensures Sub32(tags[0].stamp, first) < maxDur && Reaches(tags[1..], first, maxDur, k - 1)
  {
    assert forall i :: 0 <= i < k - 1 ==> tags[1..][i] == tags[i + 1];
  }

  lemma {:induction false} StopsAt(mem: seq<Byte>, p: nat, end: nat, first: UInt32, maxDur: int, k: nat)
    requires p < end <= |mem| && Whole(mem, p, end) && maxDur > 0
    requires k < |TagsIn(mem, p, end)| && Reaches(TagsIn(mem, p, end), first, maxDur, k)
    ensures HeadersInside(mem, p, end)
    ensures var tags := TagsIn(mem, p, end);
            ScanFrom(mem, p, end, first, maxDur) == Scan(end, tags[k].stamp, VideoCount(tags[..k + 1]), true)
    decreases k
  {
    var tags := TagsIn(mem, p, end);
    ScanOfTags(mem, p, end, first, maxDur);
    assert tags[..k + 1][1..] == tags[1..][..k];
    if k > 0 {
      ReachesLater(tags, first, maxDur, k);
      StopsAt(mem, NextTag(mem, p), end, first, maxDur, k - 1);
    }
  }

  /** With a limit, the duration and the count are those up to the first tag that reaches it, or the last tag; but
      the size stays that of all tags, so the limit does not trim what is written. */
  lemma LimitDoesNotTrim(mem: seq<Byte>, p: nat, end: nat, maxDur: int, k: nat)
    requires p < end <= |mem| && Whole(mem, p, end) && maxDur > 0
    requires var tags := TagsIn(mem, p, end); k < |tags| && Reaches(tags, tags[0].stamp, maxDur, k)
    ensures HeadersInside(mem, p, end)
    ensures var tags := TagsIn(mem, p, end);
            MeasureFrom(mem, p, end - p, maxDur) ==
            Measure(ToInt32(Sub32(tags[k].stamp, tags[0].stamp)), end - p, VideoCount(tags[..k + 1]), Some(tags[0].stamp))
  {
    StopsAt(mem, p, end, Stamp(mem, p), maxDur, k);
  }
}
