/** Numbers in bytes, high-order byte first. */
module BigEndian {
  import opened CInt

  function Number(bytes: seq<Byte>, from: nat, n: nat): nat
    requires from + n <= |bytes|
  {
    if n == 0 then 0 else 0x100 * Number(bytes, from, n - 1) + bytes[from + n - 1]
  }

  /** The low n bytes of a number, high-order byte first. */
  function Be(v: nat, n: nat): (r: seq<Byte>)
    ensures |r| == n
  {
    if n == 0 then [] else Be(v / 0x100, n - 1) + [v % 0x100]
  }

  function Power(n: nat): nat {
    if n == 0 then 1 else 0x100 * Power(n - 1)
  }

  lemma {:induction false} NumberOfBe(bytes: seq<Byte>, from: nat, n: nat, v: nat)
    requires from + n <= |bytes| && bytes[from..from + n] == Be(v, n) && v < Power(n)
    ensures Number(bytes, from, n) == v
    decreases n
  {
    if n > 0 {
      var r := Be(v, n);
      assert bytes[from..from + n][..n - 1] == bytes[from..from + (n - 1)];
      assert r[..n - 1] == Be(v / 0x100, n - 1);
      NumberOfBe(bytes, from, n - 1, v / 0x100);
      assert bytes[from + n - 1] == bytes[from..from + n][n - 1] == r[n - 1] == v % 0x100;
    }
  }
}
