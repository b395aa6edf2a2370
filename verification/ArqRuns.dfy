/** The sender in whole runs: what bursts send and how far apart, over a channel that loses, delays, repeats and reorders
    packets and acknowledgements, with a receiver that acknowledges only what it has. */
module ArqRuns {
  import opened CInt
  import opened Options
  import opened ArqAck
  import opened ArqSend

  // One burst.

  function Successes(events: seq<Event>): nat {
    if events == [] then 0
    else (if events[0].Data? && events[0].ok then 1 else 0) + Successes(events[1..])
  }

  lemma {:induction false} SuccessesConcat(a: seq<Event>, b: seq<Event>)
    ensures Successes(a + b) == Successes(a) + Successes(b)
  {
    if a == [] {
      assert a + b == b;
    } else {
      assert (a + b)[1..] == a[1..] + b;
      SuccessesConcat(a[1..], b);
    }
  }

  /** A transmission of a packet not acknowledged; one that works is noted, unless it repeats the last packet. */
  predicate Proper(acks: seq<bool>, e: Event) {
    e.Data? ==> e.pid < |acks| && !acks[e.pid] && (e.noted ==> e.ok) && (e.ok && !e.noted ==> e.pid == |acks| - 1)
  }

  predicate AllProper(acks: seq<bool>, events: seq<Event>) {
    forall i :: 0 <= i < |events| ==> Proper(acks, events[i])
  }

  /** A burst sends only packets not acknowledged, at most eight with success, and never nothing at all. It leaves the
      sender at a packet that exists. */
  lemma {:induction false} BurstIsProper(acks: seq<bool>, stamps: seq<UInt32>, next: nat, count: nat, small: nat,
                                         env: Environment, k: nat)
    requires |acks| == |stamps| && next < |acks| && count < BURST && small < |acks|
    ensures var o := Burst(acks, stamps, next, count, small, env, k);
            && |o.stamps| == |stamps| && o.next < |acks| && AllProper(acks, o.events)
            && count + Successes(o.events) <= BURST && (count == 0 ==> o.events != [])
    decreases |acks| - next
  {
    BurstStep(acks, stamps, next, count, small, env, k);
    var p := Passed(acks, stamps, next, env(k));
    var count' := if p.sent then count + 1 else count;
    if !p.repeated && next + 1 < |acks| && count' < BURST {
      BurstIsProper(acks, p.stamps, next + 1, count', small, env, k + 1);
    }
    var rest := LeftAfter(acks, p, next, count', small, env, k);
    SuccessesConcat(p.events, rest.events);
    PassSuccesses(acks, stamps, next, env(k));
    assert Successes([]) == 0 && Successes([Dummy]) == Successes([Dummy][1..]) == 0;
  }

  lemma PassSuccesses(acks: seq<bool>, stamps: seq<UInt32>, next: nat, r: Reading)
    requires |acks| == |stamps| && next < |acks|
    ensures var p := Passed(acks, stamps, next, r);
            && AllProper(acks, p.events) && |p.events| <= 1
            && Successes(p.events) == if p.sent || p.repeated then 1 else 0
  {
    var p := Passed(acks, stamps, next, r);
    assert p.events != [] ==> p.events[1..] == [];
  }

  // How far apart.

  /** For each packet the time noted last. */
  type Times = seq<Option<nat>>

  predicate Agree(stamps: seq<UInt32>, last: Times, now: nat) {
    && |stamps| == |last|
    && forall p :: 0 <= p < |last| ==>
         if last[p].None? then stamps[p] == 0 else stamps[p] == Tick(last[p].value) && last[p].value <= now
  }

  function NoteOne(last: Times, e: Event): Times {
    if e.Data? && e.noted && e.pid < |last| then last[e.pid := Some(e.after)] else last
  }

  function NoteAll(last: Times, events: seq<Event>): Times
    decreases |events|
  {
    if events == [] then last else NoteAll(NoteOne(last, events[0]), events[1..])
  }

  /** Far enough from the time noted last, unless that reads as 0, which stands for never. */
  predicate FarEnough(last: Times, e: Event) {
    (e.Data? && e.pid < |last| && last[e.pid].Some? && Tick(last[e.pid].value) != 0) ==>
      e.before >= last[e.pid].value + RESEND_AFTER
  }

  predicate Spaced(last: Times, events: seq<Event>)
    decreases |events|
  {
    events != [] ==> FarEnough(last, events[0]) && Spaced(NoteOne(last, events[0]), events[1..])
  }

  lemma {:induction false} SpacedConcat(last: Times, a: seq<Event>, b: seq<Event>)
    ensures NoteAll(last, a + b) == NoteAll(NoteAll(last, a), b)
    ensures Spaced(last, a + b) <==> Spaced(last, a) && Spaced(NoteAll(last, a), b)
    decreases |a|
  {
    if a == [] {
      assert a + b == b;
    } else {
      assert (a + b)[1..] == a[1..] + b;
      SpacedConcat(NoteOne(last, a[0]), a[1..], b);
    }
  }

  predicate Orderly(env: Environment, k: nat) {
    env(k).before <= env(k).after <= env(k + 1).before
  }

  /** The clock does not go back while the readings are taken. */
  ghost predicate Timely(env: Environment, until: nat) {
    forall k: nat :: Orderly(env, k) && env(k).after <= until
  }

  lemma TickDistance(t: nat, u: nat)
    requires t <= u && Sub32(Tick(u), Tick(t)) >= RESEND_AFTER
    ensures u >= t + RESEND_AFTER
  {
    TickDifference(t, u);
  }

  /** The difference of two readings is the time between them, modulo 2^32. */
  lemma TickDifference(t: nat, u: nat)
    requires t <= u
    ensures Sub32(Tick(u), Tick(t)) == (u - t) % TWO32
  {
    var q, r := u / TWO32 - t / TWO32, Tick(u) - Tick(t);
    assert u - t == TWO32 * q + r;
    if r >= 0 {
      DivisionIsUnique(u - t, TWO32, q, r);
    } else {
      DivisionIsUnique(u - t, TWO32, q - 1, r + TWO32);
    }
  }

  lemma PassIsSpaced(acks: seq<bool>, stamps: seq<UInt32>, next: nat, r: Reading, last: Times, now: nat)
    requires |acks| == |stamps| && next < |acks| && Agree(stamps, last, now) && now <= r.before <= r.after
    ensures var p := Passed(acks, stamps, next, r);
            Spaced(last, p.events) && Agree(p.stamps, NoteAll(last, p.events), r.after)
  {
    var p := Passed(acks, stamps, next, r);
    if p.events != [] {
      assert p.events[1..] == [];
      if last[next].Some? && stamps[next] != 0 {
        TickDistance(last[next].value, r.before);
      }
    }
  }

  lemma AgreeLater(stamps: seq<UInt32>, last: Times, now: nat, until: nat)
    requires Agree(stamps, last, now) && now <= until
    ensures Agree(stamps, last, until)
  {
  }

  lemma FillerIsSpaced(last: Times, events: seq<Event>)
    requires events == [] || events == [Dummy]
    ensures Spaced(last, events) && NoteAll(last, events) == last
  {
    assert [Dummy][1..] == [];
  }

  /** In a burst every transmission is far enough from the one noted last. */
  lemma {:induction false} BurstIsSpaced(acks: seq<bool>, stamps: seq<UInt32>, next: nat, count: nat, small: nat,
                                         env: Environment, k: nat, last: Times, now: nat, until: nat)
    requires |acks| == |stamps| && next < |acks| && count < BURST
    requires Agree(stamps, last, now) && now <= env(k).before && Timely(env, until)
    ensures var o := Burst(acks, stamps, next, count, small, env, k);
            Spaced(last, o.events) && Agree(o.stamps, NoteAll(last, o.events), until)
    decreases |acks| - next
  {
    BurstStep(acks, stamps, next, count, small, env, k);
    var p := Passed(acks, stamps, next, env(k));
    var count' := if p.sent then count + 1 else count;
    var rest := LeftAfter(acks, p, next, count', small, env, k);
    assert Orderly(env, k) && env(k).after <= until;
    PassIsSpaced(acks, stamps, next, env(k), last, now);
    SpacedConcat(last, p.events, rest.events);
    if p.repeated || next + 1 == |acks| || count' == BURST {
      FillerIsSpaced(NoteAll(last, p.events), rest.events);
      AgreeLater(p.stamps, NoteAll(last, p.events), env(k).after, until);
    } else {
      BurstIsSpaced(acks, p.stamps, next + 1, count', small, env, k + 1, NoteAll(last, p.events), env(k).after, until);
    }
  }

  /** A repetition of the last packet is not noted, so the next one need not be far from it: the next burst repeats it
      again as soon as its clock runs, if and only if the time noted is still long enough ago by the clock. */
  lemma LastPacketRepeats(acks: seq<bool>, stamps: seq<UInt32>, small: nat, env: Environment)
    requires |acks| == |stamps| > 0 && small < |acks|
    requires !acks[|acks| - 1] && stamps[|acks| - 1] != 0 && env(0).ok
    ensures var last := |acks| - 1;
            var o := Burst(acks, stamps, last, 0, small, env, 0);
            var long := Sub32(Tick(env(0).before), stamps[last]) >= RESEND_AFTER;
            && (long ==> o == Outcome(stamps, last, [Data(last, true, false, env(0).before, env(0).after)]))
            && (!long ==> o == Outcome(stamps, small, [Dummy]))
  {
    BurstStep(acks, stamps, |acks| - 1, 0, small, env, 0);
  }

  /** Two repetitions one tick apart. */
  lemma LastPacketTooSoon()
    ensures var first, second := (i: nat) => Reading(1301, true, 1301), (i: nat) => Reading(1302, true, 1302);
            var o := Burst([false], [1], 0, 0, 0, first, 0);
            && o == Outcome([1], 0, [Data(0, true, false, 1301, 1301)])
            && Burst([false], o.stamps, o.next, 0, 0, second, 0) == Outcome([1], 0, [Data(0, true, false, 1302, 1302)])
  {
  }

  /** A packet sent at time t is due at time u if and only if t reads as 0, or 1300 ticks have passed by the clock, which
      starts anew after 2^32. */
  lemma DueExactlyWhen(t: nat, u: nat)
    requires t <= u
    ensures Due(false, Tick(t), u) <==> Tick(t) == 0 || (u - t) % TWO32 >= RESEND_AFTER
  {
    TickDifference(t, u);
  }

  /** A packet that is not the last one, sent when the clock reads 0, noted, and sent again one tick later. */
  lemma ZeroTickTooSoon()
    ensures var first, second := (i: nat) => Reading(TWO32, true, TWO32), (i: nat) => Reading(TWO32 + 1, true, TWO32 + 1);
            var o := Burst([false, true], [7, 0], 0, 0, 0, first, 0);
            && o == Outcome([0, 0], 0, [Data(0, true, true, TWO32, TWO32)])
            && Burst([false, true], o.stamps, o.next, 0, 0, second, 0)
               == Outcome([1, 0], 0, [Data(0, true, true, TWO32 + 1, TWO32 + 1)])
  {
    BurstStep([false, true], [7, 0], 0, 0, 0, (i: nat) => Reading(TWO32, true, TWO32), 0);
    BurstStep([false, true], [0, 0], 0, 0, 0, (i: nat) => Reading(TWO32 + 1, true, TWO32 + 1), 0);
  }
}
