/** Whole upgrades: what reaches the kernel partition, in any run, and that a proper transfer gets there. */
module UpgradeRuns {
  import opened CInt
  import opened Options
  import opened Memory
  import opened Sequences
  import opened BigEndian
  import opened Md5Rfc
  import opened Md5Suite
  import opened UpgradeFlash
  import opened Upgrade

  // Any run.

  /** The receiver and the flash; the history: payloads accepted since the last restart, images found good with the
      text their digest was sent in, and the flash at the beginning. */
  datatype Session = Session(u: Receiver, f: Flash, payloads: seq<seq<Byte>>, good: seq<(seq<Byte>, seq<Byte>)>,
                             first: Flash)

  predicate Held(s: Session) {
    && Fitting(s.u)
    && match s.u.phase
       case Init => s.u.current == 0 && s.payloads == []
       case Receiving => ImageOf(s.u) == Flatten(s.payloads) && |s.payloads| >= 1
       case Verifying => ImageOf(s.u) == Flatten(s.payloads) && |s.payloads| >= 2 && s.u.current == s.u.announced
  }

  predicate IsGood(g: (seq<Byte>, seq<Byte>)) {
    |g.1| >= DIGEST_TEXT && Md5Digest(g.0) == FromHex(g.1, 16)
  }

  /** An image and its digest: those of section A.5 of RFC 1321. */
  lemma SuiteImageIsGood()
    ensures IsGood((LettersAndDigits(), DIGEST_DIGITS))
  {
    SuiteDigest();
    DigitsRead();
  }

  /** A kernel the flag vouches for is the first one, if the flag vouched for it then, or one whose digest was right. */
  predicate Vouched(f: Flash, first: Flash, good: seq<(seq<Byte>, seq<Byte>)>) {
    f.flag == MAGIC ==> f == first || exists i :: 0 <= i < |good| && good[i].0 == f.kernel
  }

  predicate SessionOk(s: Session) {
    && Held(s) && Vouched(s.f, s.first, s.good)
    && forall i :: 0 <= i < |s.good| ==> IsGood(s.good[i])
  }

  function NewSession(f: Flash): Session {
    Session(FRESH, f, [], [], f)
  }

  /** The device reports failures, and writes the flag in one piece. */
  predicate Sane(u: Receiver, f: Flash, d: Devices)
    requires Fitting(u)
  {
    && Honest(d.erase, ERASED) && Honest(d.burn, ImageOf(u)) && Honest(d.setting, MAGIC)
    && Atomic(d.erase, f.flag, ERASED) && Atomic(d.setting, ERASED, MAGIC)
  }

  function After(s: Session, b: Packet, d: Devices): Session
    requires SessionOk(s) && Formed(s.u, b)
  {
    var r := Processed(s.u, s.f, b, d);
    Session(r.0, LastOf(s.f, r.2),
            if r.1 != 0 then [] else if s.u.phase == Verifying then s.payloads else s.payloads + [Payload(b)],
            if s.u.phase == Verifying && Matches(s.u, b) then s.good + [(ImageOf(s.u), DigestText(b))] else s.good,
            s.first)
  }

  lemma SavedAppends(u: Receiver, b: Packet)
    requires DataFormed(b) && u.current + |Payload(b)| <= |u.buffer| && Saved(u, b).1 == 0
    ensures var t := Saved(u, b).0;
            && |t.buffer| == |u.buffer| && t.current <= |t.buffer| && Position(b) == u.current
            && ImageOf(t) == ImageOf(u) + Payload(b)
  {
  }

  lemma ReceivingKeeps(s: Session, b: Packet, d: Devices)
    requires SessionOk(s) && Formed(s.u, b) && s.u.phase != Verifying
    ensures Held(After(s, b, d))
  {
    if Processed(s.u, s.f, b, d).1 == 0 {
      FlattenSnoc(s.payloads, Payload(b));
      if s.u.phase == Init {
        FourBytes(b, 4);
        SavedAppends(s.u.(buffer := seq(Announced(b), _ => 0), announced := Announced(b)), b);
      } else {
        SavedAppends(s.u, b);
      }
    }
  }

  /** Every moment of the flash while a packet is processed. */
  lemma FlashKeeps(s: Session, b: Packet, d: Devices, i: nat)
    requires SessionOk(s) && Formed(s.u, b) && Sane(s.u, s.f, d)
    requires i < |Processed(s.u, s.f, b, d).2|
    ensures var t := After(s, b, d);
            Vouched(Processed(s.u, s.f, b, d).2[i], s.first, t.good)
  {
    var image, t := ImageOf(s.u), After(s, b, d);
    var g := Processed(s.u, s.f, b, d).2[i];
    BurnIsCrashSafe(s.f, image, d.erase, d.burn, d.setting);
    assert Safe(g, s.f.kernel, image);
    assert t.good[|s.good|].0 == image;
    if g.flag == MAGIC && g.kernel != image {
      FlagWasMagic(s.f, image, d, i);
      if s.f != s.first {
        var k :| 0 <= k < |s.good| && s.good[k].0 == s.f.kernel;
        assert t.good[k].0 == g.kernel;
      }
    }
  }

  /** The flag does not vouch for a kernel again that it did not vouch for. */
  lemma FlagWasMagic(f: Flash, image: seq<Byte>, d: Devices, i: nat)
    requires Honest(d.erase, ERASED) && Honest(d.burn, image) && Atomic(d.erase, f.flag, ERASED)
    requires i < |Burned(f, image, d.erase, d.burn, d.setting).1|
    ensures var g := Burned(f, image, d.erase, d.burn, d.setting).1[i];
            g.flag == MAGIC && g.kernel != image ==> f.flag == MAGIC
  {
  }

  lemma FlashStays(s: Session, b: Packet, d: Devices)
    requires SessionOk(s) && Formed(s.u, b) && Processed(s.u, s.f, b, d).2 == []
    ensures Vouched(After(s, b, d).f, s.first, After(s, b, d).good)
  {
    if s.f.flag == MAGIC && s.f != s.first {
      var k :| 0 <= k < |s.good| && s.good[k].0 == s.f.kernel;
      assert After(s, b, d).good[k].0 == s.f.kernel;
    }
  }

  lemma GoodStays(s: Session, b: Packet, d: Devices)
    requires SessionOk(s) && Formed(s.u, b)
    ensures forall i :: 0 <= i < |After(s, b, d).good| ==> IsGood(After(s, b, d).good[i])
  {
  }

  lemma VerifyingKeeps(s: Session, b: Packet, d: Devices)
    requires SessionOk(s) && Formed(s.u, b) && s.u.phase == Verifying
    ensures Held(After(s, b, d))
  {
  }

  /** One packet keeps it all, whatever the packet says. */
  lemma StepIsSafe(s: Session, b: Packet, d: Devices)
    requires SessionOk(s) && Formed(s.u, b) && Sane(s.u, s.f, d)
    ensures SessionOk(After(s, b, d))
  {
    var history := Processed(s.u, s.f, b, d).2;
    if s.u.phase == Verifying {
      VerifyingKeeps(s, b, d);
    } else {
      ReceivingKeeps(s, b, d);
    }
    GoodStays(s, b, d);
    if history != [] {
      FlashKeeps(s, b, d, |history| - 1);
    } else {
      FlashStays(s, b, d);
    }
  }

  datatype Event = Event(b: Packet, d: Devices)

  type Upgrading = s: Session | SessionOk(s) witness NewSession(Flash([], ERASED))

  predicate Possible(s: Upgrading, e: Event) {
    Formed(s.u, e.b) && Sane(s.u, s.f, e.d)
  }

  function Next(s: Upgrading, e: Event): Upgrading
    requires Possible(s, e)
  {
    StepIsSafe(s, e.b, e.d);
    After(s, e.b, e.d)
  }

  /** The packets lead from s to t. */
  predicate Leads(s: Upgrading, events: seq<Event>, t: Upgrading)
    decreases |events|
  {
    if events == [] then s == t
    else Possible(s, events[0]) && Leads(Next(s, events[0]), events[1..], t)
  }

  /** In every run: what is held is the payloads in order, the digest is looked at only when all announced bytes are there,
      and a kernel that the flag vouches for, at the end or should the power fail while the next packet is processed, is
      the one it vouched for at the beginning or an image whose digest was the one sent. */
  lemma {:induction false} RunsAreSafe(s: Upgrading, events: seq<Event>, t: Upgrading, e: Event, i: nat)
    requires Leads(s, events, t)
    ensures t.u.phase != Init ==> ImageOf(t.u) == Flatten(t.payloads)
    ensures t.u.phase == Verifying ==> |Flatten(t.payloads)| == t.u.announced
    ensures t.f.flag == MAGIC ==> t.f == s.first || exists k :: 0 <= k < |t.good| && t.good[k].0 == t.f.kernel
    ensures Possible(t, e) && i < |Processed(t.u, t.f, e.b, e.d).2| ==>
              Vouched(Processed(t.u, t.f, e.b, e.d).2[i], s.first, Next(t, e).good)
    ensures forall k :: 0 <= k < |t.good| ==> IsGood(t.good[k])
    decreases |events|
  {
    if events == [] {
      if Possible(t, e) && i < |Processed(t.u, t.f, e.b, e.d).2| {
        FlashKeeps(t, e.b, e.d, i);
      }
    } else {
      RunsAreSafe(Next(s, events[0]), events[1..], t, e, i);
    }
  }

  // A proper transfer.

  /** A packet of an image of so many bytes. */
  function DataPacket(announced: nat, position: nat, payload: seq<Byte>): (b: Packet)
    requires announced < TWO32 && position < TWO32 && |payload| <= PACKET_LENGTH - 12
  {
    [0x15, 0x01] + Be(|payload| + 8, 2) + Be(announced, 4) + Be(position, 4) + payload
    + seq(PACKET_LENGTH - 12 - |payload|, _ => 0)
  }

  lemma DataPacketReads(announced: nat, position: nat, payload: seq<Byte>)
    requires announced < TWO32 && position < TWO32 && |payload| <= PACKET_LENGTH - 12
    ensures var b := DataPacket(announced, position, payload);
            DataFormed(b) && Announced(b) == announced && Position(b) == position && Payload(b) == payload
  {
    var b := DataPacket(announced, position, payload);
    PowersOf();
    assert b[2..2 + 2] == Be(|payload| + 8, 2) && b[4..4 + 4] == Be(announced, 4) && b[8..8 + 4] == Be(position, 4);
    NumberOfBe(b, 2, 2, |payload| + 8);
    NumberOfBe(b, 4, 4, announced);
    NumberOfBe(b, 8, 4, position);
  }

  lemma PowersOf()
    ensures Power(2) == 0x1_0000 && Power(4) == TWO32
  {
    assert Power(1) == 0x100 && Power(3) == 0x100_0000;
  }

  predicate Pieces(pieces: seq<seq<Byte>>) {
    forall i :: 0 <= i < |pieces| ==> 0 < |pieces[i]| <= PACKET_LENGTH - 12
  }

  function TotalOf(pieces: seq<seq<Byte>>): nat {
    if pieces == [] then 0 else TotalOf(pieces[..|pieces| - 1]) + |pieces[|pieces| - 1]|
  }

  /** The receiver after the pieces of an image of total bytes; none if an error restarted it. */
  function Fed(total: nat, pieces: seq<seq<Byte>>): Option<Receiver>
    requires Pieces(pieces) && TotalOf(pieces) <= total < TWO32
  {
    if pieces == [] then Some(FRESH)
    else
      var n := |pieces| - 1;
      match Fed(total, pieces[..n])
      case None => None
      case Some(u) =>
        var b := DataPacket(total, TotalOf(pieces[..n]), pieces[n]);
        if !(Formed(u, b) && Fitting(u)) || u.phase == Verifying then None
        else
          var r := Processed(u, Flash([], []), b, IDLE);
          if r.1 != 0 then None else Some(r.0)
  }

  const IDLE := Devices(Device(false, [], [], 0), Device(false, [], [], 0), Device(false, [], [], 0))

  lemma FirstPieceArrives(total: nat, payload: seq<Byte>)
    requires 0 < |payload| <= PACKET_LENGTH - 12 && |payload| <= total < TWO32
    ensures var b := DataPacket(total, 0, payload);
            && Formed(FRESH, b)
            && var r := Processed(FRESH, Flash([], []), b, IDLE);
               && r.1 == 0 && r.0.phase == Receiving && |r.0.buffer| == total && r.0.announced == total
               && r.0.current == |payload| && Fitting(r.0) && ImageOf(r.0) == payload
  {
    DataPacketReads(total, 0, payload);
    SavedAppends(FRESH.(buffer := seq(total, _ => 0), announced := total), DataPacket(total, 0, payload));
  }

  lemma NextPieceArrives(u: Receiver, payload: seq<Byte>)
    requires Fitting(u) && u.phase == Receiving && u.announced == |u.buffer|
    requires |payload| <= PACKET_LENGTH - 12 && u.current + |payload| <= |u.buffer|
    ensures var b := DataPacket(u.announced, u.current, payload);
            && Formed(u, b)
            && var r := Processed(u, Flash([], []), b, IDLE);
               && r.1 == 0 && |r.0.buffer| == |u.buffer| && r.0.announced == u.announced
               && r.0.current == u.current + |payload| && Fitting(r.0) && ImageOf(r.0) == ImageOf(u) + payload
               && r.0.phase == if r.0.current == r.0.announced then Verifying else Receiving
  {
    DataPacketReads(u.announced, u.current, payload);
    SavedAppends(u, DataPacket(u.announced, u.current, payload));
  }

  /** Any image cut into pieces that fit packets is received as it is, and is ready for its digest at the last piece: if
      and only if there are at least two. A single piece that is the whole image leaves the receiver waiting for more. */
  lemma {:induction false} PiecesArrive(total: nat, pieces: seq<seq<Byte>>)
    requires Pieces(pieces) && TotalOf(pieces) <= total < TWO32 && pieces != []
    ensures var u := Fed(total, pieces);
            && u.Some? && Fitting(u.value) && |u.value.buffer| == total && u.value.announced == total
            && u.value.current == TotalOf(pieces) && ImageOf(u.value) == Flatten(pieces)
            && u.value.phase == if TotalOf(pieces) == total && |pieces| >= 2 then Verifying else Receiving
  {
    var n := |pieces| - 1;
    if n == 0 {
      assert pieces[..0] == [] && Flatten(pieces) == [] + pieces[0] == pieces[0];
      FirstPieceArrives(total, pieces[0]);
    } else {
      PiecesArrive(total, pieces[..n]);
      NextPieceArrives(Fed(total, pieces[..n]).value, pieces[n]);
    }
  }

  /** The packet that carries a digest as text. */
  function DigestPacket(digest: seq<Byte>): (b: Packet)
    requires |digest| == 16
  {
    [0x15, 0x05] + Be(1 + DIGEST_TEXT, 2) + [0x01] + ToHex(digest) + seq(PACKET_LENGTH - 5 - DIGEST_TEXT, _ => 0)
  }

  lemma DigestPacketReads(digest: seq<Byte>)
    requires |digest| == 16
    ensures DigestFormed(DigestPacket(digest)) && FromHex(DigestText(DigestPacket(digest)), 16) == digest
  {
    var b := DigestPacket(digest);
    PowersOf();
    assert b[2..2 + 2] == Be(1 + DIGEST_TEXT, 2);
    NumberOfBe(b, 2, 2, 1 + DIGEST_TEXT);
    assert DigestText(b) == ToHex(digest);
    HexComesBack(digest);
  }

  /** An image ready for its digest is burned when the digest sent is right, and then the flag vouches for it; when it is
      not, the flash is not touched and the system restarts. */
  lemma DigestDecides(u: Receiver, f: Flash, digest: seq<Byte>, d: Devices)
    requires Fitting(u) && u.phase == Verifying && |digest| == 16
    requires Sane(u, f, d)
    ensures DigestFormed(DigestPacket(digest))
    ensures var r := Processed(u, f, DigestPacket(digest), d);
            && (digest != Md5Digest(ImageOf(u)) ==> r == (FRESH, -4, []))
            && (digest == Md5Digest(ImageOf(u)) && r.1 == 0 ==> LastOf(f, r.2) == Flash(ImageOf(u), MAGIC))
            && (digest == Md5Digest(ImageOf(u)) && ImageOf(u) != [] && Succeeds(d.erase) && Succeeds(d.burn) && Succeeds(d.setting)
                ==> r.1 == 0)
  {
    DigestPacketReads(digest);
    BurnIsCrashSafe(f, ImageOf(u), d.erase, d.burn, d.setting);
  }
}
