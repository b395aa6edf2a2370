/** Acknowledgements: how they are laid out, and what they do to the record of each packet. */
module ArqAck {
  import opened CInt
  import opened BigEndian

  const PACKET_LENGTH := 1024

  /** All packets below small have arrived; bits tells of those from small on. */
  datatype Ack = Ack(small: nat, bits: seq<bool>)

  // The bytes: a type, the length of what follows the length, the smallest packet, and a byte for each packet from it on.

  type AckBytes = b: seq<Byte> | |b| == PACKET_LENGTH witness seq(PACKET_LENGTH, _ => 0)

  function LengthOf(b: AckBytes): nat {
    Number(b, 1, 2)
  }

  function SmallOf(b: AckBytes): nat {
    Number(b, 3, 4)
  }

  /** The bits that are looked at: as many as the length says, but only of packets that exist. */
  function BitCount(b: AckBytes, packets: nat): nat
    requires SmallOf(b) <= packets
  {
    var said, there := if LengthOf(b) < 4 then 0 else LengthOf(b) - 4, packets - SmallOf(b);
    if said <= there then said else there
  }

  predicate Readable(b: AckBytes, packets: nat) {
    SmallOf(b) <= packets && 7 + BitCount(b, packets) <= PACKET_LENGTH
  }

  function Parsed(b: AckBytes, packets: nat): Ack
    requires Readable(b, packets)
  {
    Ack(SmallOf(b), seq(BitCount(b, packets), i requires 0 <= i < BitCount(b, packets) => b[7 + i] == 1))
  }

  // The effect.

  /** The first bit not set, if there is one. */
  function FirstGap(bits: seq<bool>): (i: nat)
    ensures i <= |bits| && (i < |bits| ==> !bits[i])
    ensures forall k :: 0 <= k < i ==> bits[k]
  {
    if bits == [] || !bits[0] then 0 else 1 + FirstGap(bits[1..])
  }

  predicate Fits(a: Ack, packets: nat) {
    a.small + |a.bits| <= packets
  }

  /** A packet that has arrived, by what the acknowledgement tells. */
  predicate TellsOf(a: Ack, p: nat) {
    p < a.small || (p < a.small + |a.bits| && a.bits[p - a.small])
  }

  /** Packet p is acknowledged from then on. */
  function Marked(acks: seq<bool>, a: Ack): (r: seq<bool>)
    ensures |r| == |acks|
  {
    seq(|acks|, p requires 0 <= p < |acks| => acks[p] || TellsOf(a, p))
  }

  /** Where sending resumes: at the first gap, or at the smallest packet if no gap is told of. */
  function Resume(a: Ack): nat {
    if FirstGap(a.bits) < |a.bits| then a.small + FirstGap(a.bits) else a.small
  }

  /** Everything below the place where sending resumes is acknowledged. */
  lemma BelowResumeIsMarked(acks: seq<bool>, a: Ack, p: nat)
    requires Fits(a, |acks|) && p < Resume(a)
    ensures Resume(a) <= |acks| && Marked(acks, a)[p]
  {
  }

  /** If a bit is not set, sending resumes at the first packet not told of; otherwise at the smallest packet. */
  lemma ResumeIsOldestMissing(a: Ack, p: nat)
    ensures (exists i :: 0 <= i < |a.bits| && !a.bits[i]) ==>
              !TellsOf(a, Resume(a)) && Resume(a) < a.small + |a.bits| && (p < Resume(a) ==> TellsOf(a, p))
    ensures (forall i :: 0 <= i < |a.bits| ==> a.bits[i]) ==> Resume(a) == a.small
  {
    assert FirstGap(a.bits) < |a.bits| ==> !a.bits[FirstGap(a.bits)];
  }

  /** Resume is the number of packets if and only if the smallest packet is. */
  lemma ResumeAtEnd(a: Ack, packets: nat)
    requires Fits(a, packets)
    ensures Resume(a) <= packets && (Resume(a) == packets <==> a.small == packets)
  {
  }

  /** The receiver's side of the layout. */
  function AckPacket(a: Ack): (b: AckBytes)
    requires a.small < 0x8000_0000 && |a.bits| + 7 <= PACKET_LENGTH
  {
    [0] + Be(|a.bits| + 4, 2) + Be(a.small, 4)
    + seq(|a.bits|, i requires 0 <= i < |a.bits| => if a.bits[i] then 1 else 0)
    + seq(PACKET_LENGTH - 7 - |a.bits|, _ => 0)
  }

  /** An acknowledgement as it arrives: all below 258, and the second from there on. */
  lemma AckExample(b: AckBytes)
    requires b[..9] == [0, 0, 6, 0, 0, 1, 2, 0, 1]
    ensures Readable(b, 1000) && Parsed(b, 1000) == Ack(258, [false, true])
  {
    assert b[..9][1] == 0 && b[..9][2] == 6 && b[..9][3] == 0 && b[..9][4] == 0;
    assert b[..9][5] == 1 && b[..9][6] == 2 && b[..9][7] == 0 && b[..9][8] == 1;
    assert Number(b, 1, 1) == b[1] && Number(b, 1, 2) == 0x100 * b[1] + b[2];
    assert Number(b, 3, 1) == b[3] && Number(b, 3, 2) == 0x100 * b[3] + b[4];
    assert Number(b, 3, 3) == 0x100 * Number(b, 3, 2) + b[5] && Number(b, 3, 4) == 0x100 * Number(b, 3, 3) + b[6];
  }

  /** What a receiver packs is what the sender reads. */
  lemma AckComesBack(a: Ack, packets: nat)
    requires Fits(a, packets) && a.small < 0x8000_0000 && |a.bits| + 7 <= PACKET_LENGTH
    ensures Readable(AckPacket(a), packets) && Parsed(AckPacket(a), packets) == a
  {
    var b := AckPacket(a);
    assert b[1..1 + 2] == Be(|a.bits| + 4, 2) && b[3..3 + 4] == Be(a.small, 4);
    assert Power(2) == 0x1_0000 && Power(4) == 0x1_0000_0000 by {
      assert Power(1) == 0x100 && Power(3) == 0x100_0000;
    }
    NumberOfBe(b, 1, 2, |a.bits| + 4);
    NumberOfBe(b, 3, 4, a.small);
  }
}
