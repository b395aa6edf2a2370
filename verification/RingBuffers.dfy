/** The two byte queues: one that wraps around with a count, one that starts anew when it is empty. */
module RingBuffers {
  import opened CInt
  import opened Memory
  import opened Sequences

  const ERROR := -1

  /** Position i of a ring of cap places, for an i that is less than a round too far. */
  function Wrapped(i: nat, cap: nat): nat
    requires i < 2 * cap
    ensures Wrapped(i, cap) < cap
  {
    if i < cap then i else i - cap
  }

  lemma NextPlace(i: nat, cap: nat)
    requires i < cap
    ensures (i + 1) % cap == Wrapped(i + 1, cap)
  {
    if i + 1 < cap {
      DivisionIsUnique(i + 1, cap, 0, i + 1);
    } else {
      DivisionIsUnique(i + 1, cap, 1, 0);
    }
  }

  lemma SamePlace(i: nat, cap: nat)
    requires i < cap
    ensures i % cap == i
  {
    DivisionIsUnique(i, cap, 0, i);
  }

  /** The n bytes of a ring from position from on. */
  function InOrder(ring: seq<Byte>, from: nat, n: nat): (q: seq<Byte>)
    requires from < |ring| && n <= |ring|
    ensures |q| == n
  {
    seq(n, i requires 0 <= i < n => ring[Wrapped(from + i, |ring|)])
  }

  lemma PutBehind(ring: seq<Byte>, from: nat, n: nat, b: Byte)
    requires from < |ring| && n < |ring|
    ensures InOrder(ring[Wrapped(from + n, |ring|) := b], from, n + 1) == InOrder(ring, from, n) + [b]
  {
    var after := ring[Wrapped(from + n, |ring|) := b];
    forall i | 0 <= i < n
      ensures InOrder(after, from, n + 1)[i] == InOrder(ring, from, n)[i]
    {
      assert Wrapped(from + i, |ring|) != Wrapped(from + n, |ring|);
    }
  }

  lemma TakeFirst(ring: seq<Byte>, from: nat, n: nat)
    requires from < |ring| && 0 < n <= |ring|
    ensures InOrder(ring, from, n) == [ring[from]] + InOrder(ring, Wrapped(from + 1, |ring|), n - 1)
    ensures Wrapped(from + n, |ring|) == Wrapped(Wrapped(from + 1, |ring|) + n - 1, |ring|)
  {
    var all, rest := InOrder(ring, from, n), InOrder(ring, Wrapped(from + 1, |ring|), n - 1);
    forall i | 0 <= i < n
      ensures all[i] == ([ring[from]] + rest)[i]
    {
      if i == 0 {
        assert all[0] == ring[Wrapped(from + 0, |ring|)] == ring[from];
      } else {
        assert ([ring[from]] + rest)[i] == rest[i - 1] == ring[Wrapped(Wrapped(from + 1, |ring|) + (i - 1), |ring|)];
        assert Wrapped(Wrapped(from + 1, |ring|) + (i - 1), |ring|) == Wrapped(from + i, |ring|);
      }
    }
  }

  class CountedRing {
    const data: array<Byte>
    var rdIdx: nat
    var wrIdx: nat
    var cnt: nat

    ghost predicate Valid()
      reads this
    {
      && data.Length > 0 && rdIdx < data.Length && cnt <= data.Length
      && wrIdx == Wrapped(rdIdx + cnt, data.Length)
    }

    /** The bytes not read yet, oldest first. */
    ghost function Contents(): (q: seq<Byte>)
      requires Valid()
      reads this, data
      ensures |q| == cnt
    {
      InOrder(data[..], rdIdx, cnt)
    }

    constructor (size: nat)
      requires size > 0
      ensures Valid() && data.Length == size && Contents() == [] && fresh(data)
    {
      data := new Byte[size](_ => 0);
      rdIdx, wrIdx, cnt := 0, 0, 0;
    }

    /** Nothing changes when the buffer is full. */
    method WriteByte(b: Byte) returns (result: int)
      requires Valid()
      modifies this, data
      ensures Valid() && result == (if |old(Contents())| < data.Length then 0 else ERROR)
      ensures Contents() == if result == 0 then old(Contents()) + [b] else old(Contents())
    {
      if cnt == data.Length {
        return ERROR;
      }
      NextPlace(wrIdx, data.Length);
      PutBehind(data[..], rdIdx, cnt, b);
      data[wrIdx] := b;
      wrIdx := (wrIdx + 1) % data.Length;
      cnt := cnt + 1;
      result := 0;
    }

    /** Nothing changes when the buffer is empty. */
    method ReadByte() returns (result: int, b: Byte)
      requires Valid()
      modifies this
      ensures Valid() && result == if old(Contents()) == [] then ERROR else 0
      ensures if result == 0 then [b] + Contents() == old(Contents()) else Contents() == old(Contents())
    {
      b := 0;
      if cnt == 0 {
        return ERROR, b;
      }
      NextPlace(rdIdx, data.Length);
      TakeFirst(data[..], rdIdx, cnt);
      b := data[rdIdx];
      rdIdx := (rdIdx + 1) % data.Length;
      cnt := cnt - 1;
      result := 0;
    }

    /** All bytes or none; none is an error, too. */
    method WriteBuf(bytes: seq<Byte>) returns (result: int)
      requires Valid()
      modifies this, data
      ensures Valid() && result == if 0 < |bytes| <= data.Length - |old(Contents())| then 0 else ERROR
      ensures Contents() == if result == 0 then old(Contents()) + bytes else old(Contents())
    {
      if |bytes| == 0 || data.Length - cnt < |bytes| {
        return ERROR;
      }
      var i := 0;
      while i < |bytes|
        invariant 0 <= i <= |bytes| && Valid() && cnt == old(cnt) + i
        invariant Contents() == old(Contents()) + bytes[..i]
      {
        result := WriteByte(bytes[i]);
        i := i + 1;
      }
      result := 0;
    }

    method ReadInto(into: array<Byte>, i: nat, ghost all: seq<Byte>) returns (j: nat)
      requires Valid() && into != data && i < into.Length && cnt > 0 && into[..i] + Contents() == all
      modifies this, into
      ensures Valid() && j == i + 1 && cnt == old(cnt) - 1 && into[..j] + Contents() == all
    {
      var result, b := ReadByte();
      into[i] := b;
      j := i + 1;
      assert into[..j] == old(into[..i]) + [b];
      assert old(into[..i]) + [b] + Contents() == old(into[..i]) + ([b] + Contents());
    }

    method ReadBuf(into: array<Byte>, len: nat) returns (result: int)
      requires Valid() && into != data && len <= into.Length
      modifies this, into
      ensures Valid() && result == if 0 < len <= |old(Contents())| then 0 else ERROR
      ensures result == 0 ==> into[..len] + Contents() == old(Contents())
      ensures result != 0 ==> Contents() == old(Contents()) && into[..] == old(into[..])
    {
      if len == 0 || cnt < len {
        return ERROR;
      }
      var i := 0;
      while i < len
        invariant 0 <= i <= len && Valid() && cnt == old(cnt) - i
        invariant into[..i] + Contents() == old(Contents())
      {
        i := ReadInto(into, i, old(Contents()));
      }
      result := 0;
    }
  }

  class ResettingRing {
    const buffer: array<Byte>
    var start: nat
    var end: nat

    /** The write position never wraps, so available data and space are never negative. */
    ghost predicate Valid()
      reads this
    {
      start <= end < buffer.Length
    }

    ghost function Contents(): seq<Byte>
      requires Valid()
      reads this, buffer
    {
      buffer[start..end]
    }

    constructor (length: nat)
      ensures Valid() && buffer.Length == length + 1 && Contents() == [] && fresh(buffer)
    {
      buffer := new Byte[length + 1](_ => 0);
      start, end := 0, 0;
    }

    method AvailableData() returns (n: int)
      requires Valid()
      ensures n == |Contents()|
    {
      SamePlace(end, buffer.Length);
      n := end % buffer.Length - start;
    }

    method AvailableSpace() returns (n: int)
      requires Valid()
      ensures n == buffer.Length - end - 1 >= 0
    {
      n := buffer.Length - end - 1;
    }

    /** Room is only what is behind the data; all of the buffer if there is no data. */
    method Write(data: seq<Byte>) returns (result: int)
      requires Valid()
      modifies this, buffer
      ensures Valid()
      ensures var room := if old(Contents()) == [] then buffer.Length - 1 else buffer.Length - 1 - old(end);
              result == if |data| <= room then |data| else ERROR
      ensures Contents() == if result == ERROR then old(Contents()) else old(Contents()) + data
    {
      var available := AvailableData();
      if available == 0 {
        start, end := 0, 0;
      }
      var space := AvailableSpace();
      if space < 0 {
        assert false;
        return ERROR;
      } else if space < |data| {
        return ERROR;
      }
      Store(buffer, end, data);
      SamePlace(end + |data|, buffer.Length);
      end := (end + |data|) % buffer.Length;
      result := |data|;
    }

    method Read(target: array<Byte>, amount: nat) returns (result: int)
      requires Valid() && target != buffer && amount <= target.Length
      modifies this, target
      ensures Valid()
      ensures result == if old(Contents()) == [] then 0 else if amount <= |old(Contents())| then amount else ERROR
      ensures if result == ERROR then Contents() == old(Contents()) else target[..result] + Contents() == old(Contents())
    {
      var available := AvailableData();
      if available == 0 {
        return 0;
      } else if available < 0 {
        assert false;
        return ERROR;
      } else if available < amount {
        return ERROR;
      }
      var i := 0;
      while i < amount
        invariant 0 <= i <= amount && target[..i] == buffer[start..start + i]
        modifies target
      {
        target[i] := buffer[start + i];
        i := i + 1;
      }
      SamePlace(start + amount, buffer.Length);
      start := (start + amount) % buffer.Length;
      if end == start {
        start, end := 0, 0;
      }
      result := amount;
    }

    method Flush()
      requires Valid()
      modifies this
      ensures Valid() && Contents() == []
    {
      start, end := 0, 0;
    }
  }
}
