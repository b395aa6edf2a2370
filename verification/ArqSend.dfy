/** The sender: which packets a burst transmits, and what a poll for acknowledgements changes. */
module ArqSend {
  import opened CInt
  import opened Options
  import opened BigEndian
  import opened ArqAck

  const BURST := 8
  const RESEND_AFTER := 1300
  const ACK_TIMEOUT := 7000

  function Tick(t: nat): UInt32 {
    t % TWO32
  }

  /** One pass of the sending loop meets the outside: the time before, whether a transmission works, the time after. */
  datatype Reading = Reading(before: nat, ok: bool, after: nat)

  type Environment = nat -> Reading

  /** Transmissions: a packet, whether it worked and whether its time was noted; or filler when nothing is due. */
  datatype Event = Data(pid: nat, ok: bool, noted: bool, before: nat, after: nat) | Dummy

  /** Never sent, or not acknowledged for long enough. A stamp of 0 stands for never. */
  predicate Due(acked: bool, stamp: UInt32, t: nat) {
    !acked && (stamp == 0 || Sub32(Tick(t), stamp) >= RESEND_AFTER)
  }

  datatype Outcome = Outcome(stamps: seq<UInt32>, next: nat, events: seq<Event>)

  /** One pass: the times noted, whether a transmission is counted, and whether the last packet was repeated. */
  datatype Pass = Pass(stamps: seq<UInt32>, sent: bool, events: seq<Event>, repeated: bool)

  function Passed(acks: seq<bool>, stamps: seq<UInt32>, next: nat, r: Reading): Pass
    requires |acks| == |stamps| && next < |acks|
  {
    if !Due(acks[next], stamps[next], r.before) then Pass(stamps, false, [], false)
    else if !r.ok then Pass(stamps, false, [Data(next, false, false, r.before, r.after)], false)
    else if stamps[next] != 0 && next == |acks| - 1
    then Pass(stamps, false, [Data(next, true, false, r.before, r.after)], true)
    else Pass(stamps[next := Tick(r.after)], true, [Data(next, true, true, r.before, r.after)], false)
  }

  /** The sending loop from packet next on, after count transmissions. It ends with the eighth, with the last packet, or
      with a repetition of the last packet, which is neither counted nor noted. */
  function Burst(acks: seq<bool>, stamps: seq<UInt32>, next: nat, count: nat, small: nat, env: Environment, k: nat): Outcome
    requires |acks| == |stamps| && next < |acks| && count < BURST
    decreases |acks| - next
  {
    var p := Passed(acks, stamps, next, env(k));
    var count' := if p.sent then count + 1 else count;
    if p.repeated then Outcome(p.stamps, next, p.events)
    else if next + 1 == |acks| then Outcome(p.stamps, small, if count' == 0 then p.events + [Dummy] else p.events)
    else if count' == BURST then Outcome(p.stamps, next + 1, p.events)
    else
      Behind(p.events, Burst(acks, p.stamps, next + 1, count', small, env, k + 1))
  }

  /** What is left of the loop after one pass. */
  function LeftAfter(acks: seq<bool>, p: Pass, next: nat, count: nat, small: nat, env: Environment, k: nat): Outcome
    requires |acks| == |p.stamps| && next < |acks| && count <= BURST
  {
    if p.repeated then Outcome(p.stamps, next, [])
    else if next + 1 == |acks| then Outcome(p.stamps, small, if count == 0 then [Dummy] else [])
    else if count == BURST then Outcome(p.stamps, next + 1, [])
    else Burst(acks, p.stamps, next + 1, count, small, env, k + 1)
  }

  lemma BurstStep(acks: seq<bool>, stamps: seq<UInt32>, next: nat, count: nat, small: nat, env: Environment, k: nat)
    requires |acks| == |stamps| && next < |acks| && count < BURST
    ensures var p := Passed(acks, stamps, next, env(k));
            Burst(acks, stamps, next, count, small, env, k)
            == Behind(p.events, LeftAfter(acks, p, next, if p.sent then count + 1 else count, small, env, k))
  {
    assert Passed(acks, stamps, next, env(k)).events + [] == Passed(acks, stamps, next, env(k)).events;
  }

  function Behind(events: seq<Event>, o: Outcome): Outcome {
    o.(events := events + o.events)
  }

  lemma BehindEnd(events: seq<Event>, stamps: seq<UInt32>, next: nat, tail: seq<Event>)
    ensures Behind(events, Outcome(stamps, next, tail)) == Outcome(stamps, next, events + tail)
    ensures events + [] == events
  {
  }

  lemma BehindTwice(a: seq<Event>, b: seq<Event>, o: Outcome)
    ensures Behind(a, Behind(b, o)) == Behind(a + b, o)
  {
    assert a + (b + o.events) == a + b + o.events;
  }

  /** What a poll and the checks after it make of the sender. */
  datatype Progress = Progress(acks: seq<bool>, next: nat, small: nat, ackSeen: UInt32, on: bool)

  /** The acknowledgement received last, if any, and the times at which the clock is read. */
  datatype Poll = Poll(ack: Option<Ack>, code: int, now: nat, later: nat)

  predicate PollOk(poll: Poll, packets: nat) {
    poll.ack.Some? ==> Fits(poll.ack.value, packets)
  }

  /** A result above 0 tells of progress; at the end of the file it is the code of the last receive call. */
  function ResultOf(poll: Poll, packets: nat): int {
    match poll.ack
    case None => 0
    case Some(a) => if a.small == packets then poll.code else Resume(a)
  }

  function Polled(p: Progress, stamps: seq<UInt32>, poll: Poll): Progress
    requires |p.acks| == |stamps| && p.small <= |stamps| && PollOk(poll, |stamps|)
  {
    var n := |stamps|;
    var acks := if poll.ack.Some? then Marked(p.acks, poll.ack.value) else p.acks;
    var small := if poll.ack.Some? then Resume(poll.ack.value) else p.small;
    var progress := ResultOf(poll, n) > 0;
    var quiet := Sub32(Tick(poll.now), p.ackSeen) >= ACK_TIMEOUT && p.ackSeen != 0;
    var overdue := small < n && Sub32(Tick(poll.later), stamps[small]) >= RESEND_AFTER;
    Progress(acks,
             if (progress && small < n) || overdue then small else p.next,
             small,
             if progress then Tick(poll.now) else p.ackSeen,
             if progress then p.on && small < n else p.on && !quiet && small != n)
  }

  class Streamer {
    const packets: nat
    const acks: array<bool>
    const stamps: array<UInt32>
    var next: nat
    var small: nat
    var ackSeen: UInt32
    var on: bool

    ghost predicate Valid()
      reads this
    {
      acks.Length == packets && stamps.Length == packets && packets > 0 && next < packets && small <= packets
    }

    ghost function View(): Progress
      reads this, acks
    {
      Progress(acks[..], next, small, ackSeen, on)
    }

    /** For a file of so many packets: nothing sent, nothing acknowledged. */
    constructor (length: nat)
      requires length > 0
      ensures Valid() && fresh(acks) && fresh(stamps)
      ensures packets == (length + PACKET_LENGTH - 1) / PACKET_LENGTH
      ensures acks[..] == seq(packets, _ => false) && stamps[..] == seq(packets, _ => 0)
      ensures next == 0 && small == 0 && ackSeen == 0 && on
    {
      var n := PacketCount(length);
      packets := n;
      acks := new bool[n](_ => false);
      stamps := new UInt32[n](_ => 0);
      next, small, ackSeen, on := 0, 0, 0, true;
    }

    /** One packet: send it if it is due. */
    method Visit(r: Reading) returns (sent: bool, events: seq<Event>, repeated: bool)
      requires Valid()
      modifies stamps
      ensures Pass(stamps[..], sent, events, repeated) == Passed(acks[..], old(stamps[..]), next, r)
    {
      sent, events, repeated := false, [], false;
      if !acks[next] {
        if stamps[next] == 0 {
          events := [Data(next, r.ok, r.ok, r.before, r.after)];
          if r.ok {
            sent := true;
            stamps[next] := Tick(r.after);
          }
        } else if Sub32(Tick(r.before), stamps[next]) >= RESEND_AFTER {
          if r.ok && next == packets - 1 {
            events := [Data(next, true, false, r.before, r.after)];
            repeated := true;
          } else {
            events := [Data(next, r.ok, r.ok, r.before, r.after)];
            if r.ok {
              sent := true;
              stamps[next] := Tick(r.after);
            }
          }
        }
      }
    }

    /** The sending loop. */
    method SendBurst(env: Environment) returns (events: seq<Event>)
      requires Valid() && small < packets
      modifies this`next, stamps
      ensures Valid()
      ensures Outcome(stamps[..], next, events) == Burst(acks[..], old(stamps[..]), old(next), 0, small, env, 0)
    {
      events := [];
      var count, k: nat := 0, 0;
      ghost var whole := Burst(acks[..], stamps[..], next, 0, small, env, 0);
      ghost var left := whole;
      while count < BURST
        invariant count <= BURST && next < packets && whole == Behind(events, left)
        invariant left == if count == BURST then Outcome(stamps[..], next, [])
                          else Burst(acks[..], stamps[..], next, count, small, env, k)
        decreases packets - next
      {
        var sent, more, repeated;
        sent, more, repeated, left := OnePass(env, k, count, events, left);
        events := events + more;
        BehindEnd(events, left.stamps, left.next, left.events);
        if repeated {
          break;
        }
        if sent {
          count := count + 1;
        }
        next := next + 1;
        k := k + 1;
        if next >= packets {
          if count == 0 {
            events := events + [Dummy];
          }
          next := small;
          break;
        }
      }
    }

    /** One pass, with what is then left of the loop. */
    method OnePass(env: Environment, k: nat, ghost count: nat, ghost done: seq<Event>, ghost left: Outcome)
      returns (sent: bool, events: seq<Event>, repeated: bool, ghost rest: Outcome)
      requires Valid() && count < BURST && left == Burst(acks[..], stamps[..], next, count, small, env, k)
      modifies stamps
      ensures var p := Pass(stamps[..], sent, events, repeated);
              rest == LeftAfter(acks[..], p, next, if sent then count + 1 else count, small, env, k)
      ensures Behind(done, left) == Behind(done + events, rest) && (repeated ==> !sent)
    {
      BurstStep(acks[..], stamps[..], next, count, small, env, k);
      sent, events, repeated := Visit(env(k));
      rest := LeftAfter(acks[..], Pass(stamps[..], sent, events, repeated), next, if sent then count + 1 else count, small, env, k);
      BehindTwice(done, events, rest);
    }

    /** Read acknowledgements until none is left; only the one received last is looked at. */
    method ProcessAcks(polled: seq<AckBytes>, code: int) returns (result: int)
      requires Valid() && (polled != [] ==> ArqAck.Readable(polled[|polled| - 1], packets))
      modifies this`small, acks
      ensures Valid()
      ensures var poll := Poll(AckOf(polled, packets), code, 0, 0);
              && PollOk(poll, packets) && result == ResultOf(poll, packets)
              && acks[..] == (if poll.ack.Some? then Marked(old(acks[..]), poll.ack.value) else old(acks[..]))
              && small == if poll.ack.Some? then Resume(poll.ack.value) else old(small)
    {
      var i, kept: AckBytes := 0, seq(PACKET_LENGTH, _ => 0);
      while i < |polled|
        invariant 0 <= i <= |polled| && (i > 0 ==> kept == polled[i - 1])
      {
        kept := polled[i];
        i := i + 1;
      }
      if polled == [] {
        return 0;
      }
      if SmallOf(kept) == packets {
        MarkBelow(packets);
        small := packets;
        result := code;
      } else {
        MarkAck(kept);
        result := small;
      }
    }

    /** Mark what one acknowledgement tells of, and go on at its first gap. */
    method MarkAck(b: AckBytes)
      requires Valid() && ArqAck.Readable(b, packets)
      modifies this`small, acks
      ensures var a := Parsed(b, packets); acks[..] == Marked(old(acks[..]), a) && small == Resume(a)
    {
      var smallest, said: int := Number(b, 3, 4), Number(b, 1, 2);
      MarkBelow(smallest);
      small := smallest;
      var gap := MarkBits(b, smallest, said - 4);
      if gap.Some? {
        small := smallest + gap.value;
      }
    }

    method MarkBelow(smallest: nat)
      requires Valid() && smallest <= packets
      modifies acks
      ensures forall p :: 0 <= p < packets ==> acks[p] == (old(acks[p]) || p < smallest)
    {
      var i := 0;
      while i < smallest
        invariant 0 <= i <= smallest
        invariant forall p :: 0 <= p < packets ==> acks[p] == (old(acks[p]) || p < i)
      {
        if !acks[i] {
          acks[i] := true;
        }
        i := i + 1;
      }
    }

    /** Take over the bits of packets that exist, and find the first one not set. */
    method MarkBits(b: AckBytes, smallest: nat, bits: int) returns (gap: Option<nat>)
      requires Valid() && ArqAck.Readable(b, packets) && smallest == SmallOf(b) && bits == LengthOf(b) - 4
      modifies acks
      ensures var a := Parsed(b, packets);
              && (forall p :: 0 <= p < packets ==>
                    acks[p] == (old(acks[p]) || (smallest <= p < smallest + |a.bits| && a.bits[p - smallest])))
              && gap == if FirstGap(a.bits) < |a.bits| then Some(FirstGap(a.bits)) else None
    {
      ghost var a := Parsed(b, packets);
      gap := None;
      var i := 0;
      while i < bits
        invariant 0 <= i <= |a.bits| && (gap.None? ==> forall k :: 0 <= k < i ==> a.bits[k])
        invariant gap.Some? ==> gap.value < i && !a.bits[gap.value] && forall k :: 0 <= k < gap.value ==> a.bits[k]
        invariant forall p :: 0 <= p < packets ==>
          acks[p] == (old(acks[p]) || (smallest <= p < smallest + i && a.bits[p - smallest]))
      {
        if smallest + i >= packets {
          break;
        }
        if b[7 + i] == 1 {
          acks[smallest + i] := true;
        } else if gap.None? {
          gap := Some(i);
        }
        i := i + 1;
      }
    }

    /** Process acknowledgements, then decide where to go on, and whether. */
    method PollAndDecide(polled: seq<AckBytes>, code: int, now: nat, later: nat)
      requires Valid() && (polled != [] ==> ArqAck.Readable(polled[|polled| - 1], packets))
      modifies this, acks
      ensures Valid()
      ensures var poll := Poll(AckOf(polled, packets), code, now, later);
              PollOk(poll, packets) && View() == Polled(old(View()), stamps[..], poll)
    {
      var result := ProcessAcks(polled, code);
      if result > 0 {
        if small < packets {
          next := small;
        } else {
          on := false;
        }
        ackSeen := Tick(now);
      } else {
        if Sub32(Tick(now), ackSeen) >= ACK_TIMEOUT && ackSeen != 0 {
          on := false;
        }
        if small == packets {
          on := false;
        }
      }
      if small < packets && Sub32(Tick(later), stamps[small]) >= RESEND_AFTER {
        next := small;
      }
    }
  }

  function AckOf(polled: seq<AckBytes>, packets: nat): Option<Ack>
    requires polled != [] ==> ArqAck.Readable(polled[|polled| - 1], packets)
  {
    if polled == [] then None else Some(Parsed(polled[|polled| - 1], packets))
  }

  /** Packets of 1024 bytes, the last one perhaps not full. */
  method PacketCount(length: nat) returns (n: nat)
    ensures n == (length + PACKET_LENGTH - 1) / PACKET_LENGTH
    ensures PACKET_LENGTH * n >= length && (n > 0 ==> PACKET_LENGTH * (n - 1) < length)
  {
    n := length / PACKET_LENGTH;
    if length % PACKET_LENGTH != 0 {
      n := n + 1;
    }
  }
}
