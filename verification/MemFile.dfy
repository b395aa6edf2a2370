/** The file in memory: one buffer, written once, then read. */
module MemFile {
  import opened CInt
  import opened Memory

  datatype Mode = ForWriting | ForReading | OtherMode

  datatype Outcome = Refused | Opened

  const BUFFER_LENGTH := 2 * 1024 * 1024
  const NAME_LENGTH := 64
  const STRUCT_LENGTH := 20
  /** Room for the file proper, behind the description and the name. */
  const CAPACITY: nat := BUFFER_LENGTH - STRUCT_LENGTH - NAME_LENGTH

  const OUT_OF_BUFFER := -2

  /** What one buffer holds between calls: a named file or none, its bytes, the position, and the limit of both. */
  datatype File = File(signed: bool, named: bool, bin: seq<Byte>, current: nat, limit: nat)

  predicate FileOk(f: File) {
    |f.bin| == CAPACITY && (f.signed ==> f.current <= f.limit <= CAPACITY)
  }

  // The calls as functions on the file.

  /** Opening a file that has a name is refused for writing; for reading it rewinds a file that was being written, and
      only such a file: one opened before keeps its position. Without a name in the buffer any mode starts a new file. */
  function Open(f: File, named: bool, mode: Mode): (File, Outcome) {
    if f.signed && f.named then
      match mode
      case ForWriting => (f, Refused)
      case ForReading => (if f.limit == CAPACITY then f.(limit := f.current, current := 0) else f, Opened)
      case OtherMode => (f, Refused)
    else (f.(signed := true, named := named, limit := CAPACITY, current := 0), Opened)
  }

  /** All or nothing. */
  function WriteTo(f: File, data: seq<Byte>): (File, int)
    requires FileOk(f) && f.signed
  {
    if f.current + |data| <= f.limit
    then (f.(bin := Overwrite(f.bin, f.current, data), current := f.current + |data|), |data|)
    else (f, OUT_OF_BUFFER)
  }

  /** As many of n bytes as are left. */
  function ReadFrom(f: File, n: nat): (File, seq<Byte>)
    requires FileOk(f) && f.signed
  {
    var end := if f.current + n <= f.limit then f.current + n else f.limit;
    (f.(current := end), f.bin[f.current..end])
  }

  function Erase(f: File): File {
    if f.signed then f.(named := false) else f
  }

  class MemoryFile {
    var signed: bool
    var named: bool
    const bin: array<Byte>
    var current: nat
    var limit: nat

    ghost function View(): File
      reads this, bin
    {
      File(signed, named, bin[..], current, limit)
    }

    ghost predicate Valid()
      reads this, bin
    {
      FileOk(View())
    }

    constructor ()
      ensures Valid() && !signed && fresh(bin)
    {
      bin := new Byte[CAPACITY](_ => 0);
      signed, named, current, limit := false, false, 0, 0;
    }

    method FOpen(name: string, mode: Mode) returns (outcome: Outcome)
      requires Valid() && |name| < NAME_LENGTH
      modifies this
      ensures Valid() && (View(), outcome) == Open(old(View()), name != "", mode)
    {
      if signed && named {
        match mode {
          case ForWriting => return Refused;
          case ForReading =>
            if limit == CAPACITY {
              limit := current;
              current := 0;
            }
            return Opened;
          case OtherMode => return Refused;
        }
      }
      signed := true;
      named := name != "";
      limit := CAPACITY;
      current := 0;
      return Opened;
    }

    /** Write n elements of the given size: all or none. */
    method FWrite(data: seq<Byte>, size: nat, n: nat) returns (written: int)
      requires Valid() && signed && |data| == size * n
      modifies this, bin
      ensures Valid() && signed
      ensures var w := WriteTo(old(View()), data);
              View() == w.0 && written == if w.1 == OUT_OF_BUFFER then OUT_OF_BUFFER else n
    {
      if current + |data| > limit {
        return OUT_OF_BUFFER;
      }
      Store(bin, current, data);
      current := current + |data|;
      written := n;
    }

    /** Take as many bytes as are left and fit. */
    method Take(into: array<Byte>) returns (count: nat)
      requires Valid() && signed && into != bin
      modifies this`current, into
      ensures Valid() && signed && count <= into.Length
      ensures var r := ReadFrom(old(View()), into.Length);
              View() == r.0 && into[..count] == r.1 && into[count..] == old(into[count..])
    {
      count := if current + into.Length <= limit then into.Length else limit - current;
      var i := 0;
      while i < count
        invariant 0 <= i <= count
        invariant into[..i] == bin[current..current + i] && into[count..] == old(into[count..])
        modifies into
      {
        into[i] := bin[current + i];
        i := i + 1;
      }
      current := current + count;
    }

    /** Read up to n elements of the given size. Bytes that end in the middle of an element are read as well, but only
        whole elements are counted. */
    method FRead(into: array<Byte>, size: nat, n: nat) returns (elements: nat)
      requires Valid() && signed && into != bin && size > 0 && into.Length == size * n
      modifies this`current, into
      ensures Valid() && signed
      ensures var r := ReadFrom(old(View()), into.Length);
              && View() == r.0 && |r.1| <= into.Length && elements == |r.1| / size
              && into[..|r.1|] == r.1 && into[|r.1|..] == old(into[|r.1|..])
    {
      var count := Take(into);
      elements := count / size;
    }

    method FErase()
      requires Valid()
      modifies this`named
      ensures Valid() && View() == Erase(old(View()))
    {
      if signed {
        named := false;
      }
    }
  }

  // Whole uses.

  /** Write the blocks one after the other; a block that does not fit changes nothing. */
  function WriteAll(f: File, blocks: seq<seq<Byte>>): (r: (File, seq<int>))
    requires FileOk(f) && f.signed
    ensures FileOk(r.0) && r.0.signed && |r.1| == |blocks|
    decreases |blocks|
  {
    if blocks == [] then (f, [])
    else
      var w := WriteTo(f, blocks[0]);
      var rest := WriteAll(w.0, blocks[1..]);
      (rest.0, [w.1] + rest.1)
  }

  /** The blocks that fit. */
  function Accepted(blocks: seq<seq<Byte>>, results: seq<int>): seq<Byte>
    requires |blocks| == |results|
  {
    if blocks == [] then []
    else (if results[0] == OUT_OF_BUFFER then [] else blocks[0]) + Accepted(blocks[1..], results[1..])
  }

  lemma {:induction false} WritesAppend(f: File, blocks: seq<seq<Byte>>)
    requires FileOk(f) && f.signed
    ensures var r := WriteAll(f, blocks);
            && r.0.limit == f.limit && r.0.named == f.named && f.current <= r.0.current
            && r.0.bin[..r.0.current] == f.bin[..f.current] + Accepted(blocks, r.1)
    decreases |blocks|
  {
    if blocks == [] {
      assert f.bin[..f.current] + [] == f.bin[..f.current];
    } else {
      var w := WriteTo(f, blocks[0]);
      var rest := WriteAll(w.0, blocks[1..]);
      WritesAppend(w.0, blocks[1..]);
      assert ([w.1] + rest.1)[1..] == rest.1;
      WriteAppends(f, blocks[0]);
      var done := if w.1 == OUT_OF_BUFFER then [] else blocks[0];
      assert f.bin[..f.current] + done + Accepted(blocks[1..], rest.1)
          == f.bin[..f.current] + (done + Accepted(blocks[1..], rest.1));
    }
  }

  lemma WriteAppends(f: File, data: seq<Byte>)
    requires FileOk(f) && f.signed
    ensures var w := WriteTo(f, data);
            && FileOk(w.0) && w.0.signed
            && (w.1 == OUT_OF_BUFFER <==> f.current + |data| > f.limit)
            && w.0.bin[..w.0.current] == f.bin[..f.current] + if w.1 == OUT_OF_BUFFER then [] else data
  {
    var w := WriteTo(f, data);
    if w.1 == OUT_OF_BUFFER {
      assert f.bin[..f.current] + [] == f.bin[..f.current];
    } else {
      assert Overwrite(f.bin, f.current, data)[..w.0.current] == f.bin[..f.current] + data;
    }
  }

  /** Read pieces of the given sizes, one after the other. */
  function ReadAll(f: File, sizes: seq<nat>): (r: (File, seq<Byte>))
    requires FileOk(f) && f.signed
    ensures FileOk(r.0) && r.0.signed
    decreases |sizes|
  {
    if sizes == [] then (f, [])
    else
      var one := ReadFrom(f, sizes[0]);
      var rest := ReadAll(one.0, sizes[1..]);
      (rest.0, one.1 + rest.1)
  }

  function Sum(sizes: seq<nat>): nat {
    if sizes == [] then 0 else sizes[0] + Sum(sizes[1..])
  }

  lemma Joined(bin: seq<Byte>, a: nat, b: nat, c: nat)
    requires a <= b <= c <= |bin|
    ensures bin[a..b] + bin[b..c] == bin[a..c]
  {
  }

  lemma {:induction false} ReadsAdvance(f: File, sizes: seq<nat>)
    requires FileOk(f) && f.signed
    ensures var r := ReadAll(f, sizes);
            var end := if f.current + Sum(sizes) <= f.limit then f.current + Sum(sizes) else f.limit;
            r.0 == f.(current := end) && r.1 == f.bin[f.current..end]
    decreases |sizes|
  {
    if sizes != [] {
      var one := ReadFrom(f, sizes[0]);
      ReadsAdvance(one.0, sizes[1..]);
      var end := if f.current + Sum(sizes) <= f.limit then f.current + Sum(sizes) else f.limit;
      Joined(f.bin, f.current, one.0.current, end);
    }
  }

  /** A new file holds what it accepted, and opened for reading it is at the start of just that. */
  lemma WrittenThenOpened(f: File, blocks: seq<seq<Byte>>)
    requires FileOk(f) && !(f.signed && f.named)
    ensures var written := WriteAll(Open(f, true, ForWriting).0, blocks);
            var reader := Open(written.0, true, ForReading);
            && reader.1 == Opened && FileOk(reader.0) && reader.0.signed && reader.0.named && reader.0.current == 0
            && reader.0.bin[..reader.0.limit] == Accepted(blocks, written.1)
  {
    var made := Open(f, true, ForWriting).0;
    var written := WriteAll(made, blocks);
    WritesAppend(made, blocks);
    assert made.bin[..0] + Accepted(blocks, written.1) == Accepted(blocks, written.1);
  }

  /** A new file, written in any blocks of which some may not fit, then opened for reading and read in any pieces,
      gives back what was accepted, from the start, as much of it as the pieces ask for. Opening it for writing is
      refused until it is erased. */
  lemma RoundTrip(f: File, blocks: seq<seq<Byte>>, sizes: seq<nat>)
    requires FileOk(f) && !(f.signed && f.named)
    ensures var written := WriteAll(Open(f, true, ForWriting).0, blocks);
            var data := Accepted(blocks, written.1);
            var reader := Open(written.0, true, ForReading);
            && reader.1 == Opened && FileOk(reader.0) && reader.0.signed
            && var got := ReadAll(reader.0, sizes);
               && got.1 == data[..if Sum(sizes) <= |data| then Sum(sizes) else |data|]
               && Open(got.0, true, ForWriting) == (got.0, Refused)
               && Open(Erase(got.0), true, ForWriting).1 == Opened
  {
    var written := WriteAll(Open(f, true, ForWriting).0, blocks);
    var reader := Open(written.0, true, ForReading).0;
    WrittenThenOpened(f, blocks);
    ReadsAdvance(reader, sizes);
    var end := if Sum(sizes) <= reader.limit then Sum(sizes) else reader.limit;
    assert reader.bin[0..end] == reader.bin[..reader.limit][..end];
  }

  /** Opening a file for reading that is being read already goes on where reading stopped, if and only if the file
      does not fill the buffer exactly. One that does is taken for a file being written: it is cut to what was read
      and rewound. */
  lemma ReopeningKeepsPosition(f: File)
    requires FileOk(f) && f.signed && f.named
    ensures Open(f, true, ForReading) == (f, Opened) <==> f.limit != CAPACITY
    ensures f.limit == CAPACITY ==> Open(f, true, ForReading) == (f.(limit := f.current, current := 0), Opened)
  {
  }
}
