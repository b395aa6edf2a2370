/** Copying bytes into arrays, as `memcpy` does. */
module Memory {
  import opened CInt

  /** mem with bytes put at position at. */
  function Overwrite(mem: seq<Byte>, at: nat, bytes: seq<Byte>): seq<Byte>
    requires at + |bytes| <= |mem|
  {
    mem[..at] + bytes + mem[at + |bytes|..]
  }

  method Store(mem: array<Byte>, at: nat, bytes: seq<Byte>)
    requires at + |bytes| <= mem.Length
    modifies mem
    ensures mem[..] == Overwrite(old(mem[..]), at, bytes)
  {
    var i := 0;
    while i < |bytes|
      invariant 0 <= i <= |bytes|
      invariant forall k :: 0 <= k < mem.Length ==> mem[k] == if at <= k < at + i then bytes[k - at] else old(mem[k])
    {
      mem[at + i] := bytes[i];
      i := i + 1;
    }
  }

  /** Copy the first n bytes of another array. */
  method CopyBytes(mem: array<Byte>, from: array<Byte>, n: nat)
    requires n <= from.Length && n <= mem.Length && mem != from
    modifies mem
    ensures mem[..] == Overwrite(old(mem[..]), 0, from[..n])
  {
    var i := 0;
    while i < n
      invariant 0 <= i <= n
      invariant forall k :: 0 <= k < mem.Length ==> mem[k] == if k < i then from[k] else old(mem[k])
    {
      mem[i] := from[i];
      i := i + 1;
    }
  }
}
