/** Receiving an image over the link, checking it against the digest sent with it, and burning it. */
module Upgrade {
  import opened CInt
  import opened Memory
  import opened Sequences
  import opened BigEndian
  import opened Md5Suite
  import opened Md5Rfc
  import opened Md5Blocks
  import opened Md5
  import opened UpgradeFlash

  const PACKET_LENGTH := 1024

  type Packet = b: seq<Byte> | |b| == PACKET_LENGTH witness seq(PACKET_LENGTH, _ => 0)

  // The layout: type, control, a length of two bytes; then the announced length, the position and the payload, or the
  // kind of digest and its text.

  function LengthField(b: Packet): nat {
    Number(b, 2, 2)
  }

  function Announced(b: Packet): nat {
    Number(b, 4, 4)
  }

  function Position(b: Packet): nat {
    Number(b, 8, 4)
  }

  /** The length covers the announced length, the position and the payload. */
  predicate DataFormed(b: Packet) {
    8 <= LengthField(b) <= PACKET_LENGTH - 4
  }

  function Payload(b: Packet): seq<Byte>
    requires DataFormed(b)
  {
    b[12..4 + LengthField(b)]
  }

  const DIGEST_TEXT := 32

  /** The length covers the kind of digest and its text. */
  predicate DigestFormed(b: Packet) {
    1 + DIGEST_TEXT <= LengthField(b) <= PACKET_LENGTH - 4
  }

  function DigestText(b: Packet): seq<Byte>
    requires DigestFormed(b)
  {
    b[5..4 + LengthField(b)]
  }

  // Hexadecimal text.

  /** A digit's value; any other character reads as 255. */
  function HexDigit(c: Byte): Byte {
    if 0x30 <= c <= 0x39 then c - 0x30
    else if 0x61 <= c <= 0x66 then c - 0x57
    else if 0x41 <= c <= 0x46 then c - 0x37
    else 0xFF
  }

  /** Two characters make a byte, of which each gives the low half of its value. */
  function HexByte(high: Byte, low: Byte): Byte {
    16 * (HexDigit(high) % 16) + HexDigit(low) % 16
  }

  function FromHex(text: seq<Byte>, n: nat): (r: seq<Byte>)
    requires 2 * n <= |text|
    ensures |r| == n
  {
    seq(n, i requires 0 <= i < n => HexByte(text[2 * i], text[2 * i + 1]))
  }

  function ToHexDigit(v: nat): Byte
    requires v < 16
  {
    if v < 10 then 0x30 + v else 0x57 + v
  }

  function ToHex(bytes: seq<Byte>): (text: seq<Byte>)
    ensures |text| == 2 * |bytes|
  {
    seq(2 * |bytes|, i requires 0 <= i < 2 * |bytes| => ToHexDigit(if i % 2 == 0 then bytes[i / 2] / 16 else bytes[i / 2] % 16))
  }

  lemma HexByteBack(v: Byte)
    ensures HexByte(ToHexDigit(v / 16), ToHexDigit(v % 16)) == v
  {
  }

  /** Text written in digits reads back. */
  lemma HexComesBack(bytes: seq<Byte>)
    ensures FromHex(ToHex(bytes), |bytes|) == bytes
  {
    forall i | 0 <= i < |bytes|
      ensures FromHex(ToHex(bytes), |bytes|)[i] == bytes[i]
    {
      assert 2 * i / 2 == i && (2 * i + 1) / 2 == i && 2 * i % 2 == 0 && (2 * i + 1) % 2 == 1;
      HexByteBack(bytes[i]);
    }
  }

  /** A character that is no hexadecimal digit is taken for an F. */
  lemma OtherCharactersAreF(c: Byte)
    requires !(0x30 <= c <= 0x39) && !(0x61 <= c <= 0x66) && !(0x41 <= c <= 0x46)
    ensures HexDigit(c) % 16 == HexDigit(0x46) % 16
  {
  }

  /** A digest in digits: d174ab98d277d9f5a5611c2c9f419d9f. */
  const DIGEST_DIGITS: seq<Byte> := [
    0x64, 0x31, 0x37, 0x34, 0x61, 0x62, 0x39, 0x38, 0x64, 0x32, 0x37, 0x37, 0x64, 0x39, 0x66, 0x35,
    0x61, 0x35, 0x36, 0x31, 0x31, 0x63, 0x32, 0x63, 0x39, 0x66, 0x34, 0x31, 0x39, 0x64, 0x39, 0x66]

  lemma PairReads(i: nat)
    requires i < 16
    ensures HexByte(DIGEST_DIGITS[2 * i], DIGEST_DIGITS[2 * i + 1]) == DIGEST[i]
  {
    if i < 8 {
      UpperPairReads(i);
    } else {
      LowerPairReads(i);
    }
  }

  lemma UpperPairReads(i: nat)
    requires i < 8
    ensures HexByte(DIGEST_DIGITS[2 * i], DIGEST_DIGITS[2 * i + 1]) == DIGEST[i]
  {
  }

  lemma LowerPairReads(i: nat)
    requires 8 <= i < 16
    ensures HexByte(DIGEST_DIGITS[2 * i], DIGEST_DIGITS[2 * i + 1]) == DIGEST[i]
  {
  }

  lemma DigitsRead()
    ensures FromHex(DIGEST_DIGITS, 16) == DIGEST
  {
    var bytes := FromHex(DIGEST_DIGITS, 16);
    forall i | 0 <= i < |bytes|
      ensures bytes[i] == DIGEST[i]
    {
      PairReads(i);
    }
  }

  method StringToHex(text: seq<Byte>, n: nat) returns (hex: seq<Byte>)
    requires 2 * n <= |text|
    ensures hex == FromHex(text, n)
  {
    hex := [];
    var i := 0;
    while i < n
      invariant 0 <= i <= n && hex == FromHex(text, i)
    {
      hex := hex + [16 * (HexDigit(text[2 * i]) % 16) + HexDigit(text[2 * i + 1]) % 16];
      i := i + 1;
    }
  }

  // The state machine.

  datatype Phase = Init | Receiving | Verifying

  /** The globals of the upgrade: the buffer once it is allocated, how much of it is filled, and the announced length. */
  datatype Receiver = Receiver(phase: Phase, buffer: seq<Byte>, current: nat, announced: nat)

  const FRESH := Receiver(Init, [], 0, 0)

  /** Copy a payload behind what is there, if it is at the position to go on from. */
  function Saved(u: Receiver, b: Packet): (Receiver, int)
    requires DataFormed(b) && u.current + |Payload(b)| <= |u.buffer|
  {
    if u.current != Position(b) then (u, -2)
    else (u.(buffer := Overwrite(u.buffer, u.current, Payload(b)), announced := Announced(b),
             current := u.current + |Payload(b)|), 0)
  }

  /** The first packet fits the buffer its announced length asks for; a later one what is left. */
  predicate Room(u: Receiver, b: Packet) {
    DataFormed(b) && u.current + |Payload(b)| <= if u.phase == Init then Announced(b) else |u.buffer|
  }

  function FirstPacket(u: Receiver, b: Packet): (Receiver, int)
    requires u.phase == Init && (Announced(b) > 0 ==> Room(u, b))
  {
    if Announced(b) == 0 then (u, -1)
    else
      var saved := Saved(u.(buffer := seq(Announced(b), _ => 0), announced := Announced(b)), b);
      if saved.1 != 0 then (saved.0, -3) else (saved.0.(phase := Receiving), 0)
  }

  /** The image is complete when the filled part has the length announced in the packet just saved. */
  function NextPacket(u: Receiver, b: Packet): (Receiver, int)
    requires u.phase == Receiving && Room(u, b)
  {
    var saved := Saved(u, b);
    if saved.1 != 0 then (saved.0, -3)
    else if saved.0.current == saved.0.announced then (saved.0.(phase := Verifying), 0)
    else (saved.0, 0)
  }

  function ImageOf(u: Receiver): seq<Byte>
    requires u.current <= |u.buffer|
  {
    u.buffer[..u.current]
  }

  /** The image is good if its digest is the one in the packet. */
  predicate Matches(u: Receiver, b: Packet)
    requires u.current <= |u.buffer| && DigestFormed(b)
  {
    Md5Digest(ImageOf(u)) == FromHex(DigestText(b), 16)
  }

  datatype Devices = Devices(erase: Device, burn: Device, setting: Device)

  /** A packet of the form its state expects, whose payload has room. */
  predicate Formed(u: Receiver, b: Packet) {
    match u.phase
    case Init => Announced(b) == 0 || Room(u, b)
    case Receiving => Room(u, b)
    case Verifying => DigestFormed(b)
  }

  predicate Fitting(u: Receiver) {
    u.current <= |u.buffer| < TWO32
  }

  /** What one packet does, before an error resets the system: the receiver, the result, the flash from then on. */
  function Handled(u: Receiver, f: Flash, b: Packet, d: Devices): (Receiver, int, seq<Flash>)
    requires Formed(u, b) && Fitting(u)
  {
    match u.phase
    case Init => var r := FirstPacket(u, b); (r.0, r.1, [])
    case Receiving => var r := NextPacket(u, b); (r.0, r.1, [])
    case Verifying =>
      if !Matches(u, b) then (u, -4, [])
      else
        var r := Burned(f, ImageOf(u), d.erase, d.burn, d.setting);
        (u, r.0, r.1)
  }

  /** An error restarts the system, with nothing received. */
  function Processed(u: Receiver, f: Flash, b: Packet, d: Devices): (Receiver, int, seq<Flash>)
    requires Formed(u, b) && Fitting(u)
  {
    var r := Handled(u, f, b, d);
    if r.1 != 0 then (FRESH, r.1, r.2) else r
  }

  class Upgrader {
    var phase: Phase
    var buffer: array<Byte>
    var current: nat
    var announced: nat
    const flash: Partitions

    ghost function View(): Receiver
      reads this, buffer
    {
      Receiver(phase, buffer[..], current, announced)
    }

    ghost predicate Valid()
      reads this, buffer
    {
      Fitting(View())
    }

    constructor (f: Flash)
      ensures Valid() && View() == FRESH && flash.View() == f && fresh(buffer) && fresh(flash)
    {
      phase := Init;
      buffer := new Byte[0];
      current, announced := 0, 0;
      flash := new Partitions(f);
    }

    method SaveData(b: Packet) returns (result: int)
      requires Valid() && DataFormed(b) && current + |Payload(b)| <= buffer.Length
      modifies this`current, this`announced, buffer
      ensures Valid() && buffer == old(buffer) && (View(), result) == Saved(old(View()), b)
    {
      var length := Number(b, 2, 2) - 8;
      var position := Number(b, 8, 4);
      if current != position {
        return -2;
      }
      Store(buffer, current, b[12..12 + length]);
      announced := Number(b, 4, 4);
      current := current + length;
      result := 0;
    }

    method ActionInit(b: Packet) returns (result: int)
      requires Valid() && phase == Init && (Announced(b) > 0 ==> Room(View(), b))
      modifies this, buffer
      ensures Valid() && (buffer == old(buffer) || fresh(buffer)) && (View(), result) == FirstPacket(old(View()), b)
    {
      var size := Number(b, 4, 4);
      if size == 0 {
        return -1;
      }
      FourBytes(b, 4);
      announced := size;
      buffer := new Byte[size](_ => 0);
      assert View() == old(View()).(buffer := seq(size, _ => 0), announced := size);
      result := SaveData(b);
      if result != 0 {
        result := -3;
      } else {
        phase := Receiving;
      }
    }

    method ActionReceive(b: Packet) returns (result: int)
      requires Valid() && phase == Receiving && Room(View(), b)
      modifies this, buffer
      ensures Valid() && buffer == old(buffer) && (View(), result) == NextPacket(old(View()), b)
    {
      result := SaveData(b);
      if result != 0 {
        result := -3;
      } else if current == announced {
        phase := Verifying;
      }
    }

    method ActionVerify(b: Packet, d: Devices) returns (result: int, history: seq<Flash>)
      requires Valid() && DigestFormed(b)
      modifies flash
      ensures (result, history) == if Matches(View(), b)
                                   then Burned(old(flash.View()), ImageOf(View()), d.erase, d.burn, d.setting) else (-4, [])
      ensures flash.View() == LastOf(old(flash.View()), history)
    {
      var digest := ValidateBin(buffer[..current]);
      var sent := StringToHex(b[5..4 + Number(b, 2, 2)], 16);
      assert digest == Md5Digest(ImageOf(View())) && sent == FromHex(DigestText(b), 16);
      if digest != sent {
        return -4, [];
      }
      result, history := flash.KernelOta(buffer[..current], d.erase, d.burn, d.setting);
    }

    /** One packet through the state table, and the restart after an error. */
    method Process(b: Packet, d: Devices) returns (result: int, history: seq<Flash>)
      requires Valid() && Formed(View(), b)
      modifies this, buffer, flash
      ensures Valid() && (buffer == old(buffer) || fresh(buffer))
      ensures (View(), result, history) == Processed(old(View()), old(flash.View()), b, d)
      ensures flash.View() == LastOf(old(flash.View()), history)
    {
      history := [];
      match phase {
        case Init => result := ActionInit(b);
        case Receiving => result := ActionReceive(b);
        case Verifying => result, history := ActionVerify(b, d);
      }
      if result != 0 {
        phase := Init;
        buffer := new Byte[0];
        current, announced := 0, 0;
      }
    }
  }

  lemma FourBytes(bytes: seq<Byte>, from: nat)
    requires from + 4 <= |bytes|
    ensures Number(bytes, from, 4) < TWO32
  {
    assert Number(bytes, from, 2) == 0x100 * Number(bytes, from, 1) + bytes[from + 1];
    assert Number(bytes, from, 1) == 0x100 * Number(bytes, from, 0) + bytes[from];
    assert Number(bytes, from, 3) == 0x100 * Number(bytes, from, 2) + bytes[from + 2];
  }
}
