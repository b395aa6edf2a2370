/** Exactly what one burst sends: the packets that are due, in order, up to where it ends. */
module ArqSweep {
  import opened CInt
  import opened ArqSend
  import opened ArqRuns

  predicate Sends(events: seq<Event>, pid: nat) {
    exists i :: 0 <= i < |events| && events[i].Data? && events[i].pid == pid
  }

  predicate InOrder(e: Event, f: Event) {
    e.Data? && (f.Data? ==> e.pid < f.pid)
  }

  /** Packets in rising order, none twice; filler only at the end. */
  predicate Rising(events: seq<Event>) {
    forall i, j :: 0 <= i < j < |events| ==> InOrder(events[i], events[j])
  }

  function Noted(events: seq<Event>): nat {
    if events == [] then 0 else (if events[0].Data? && events[0].noted then 1 else 0) + Noted(events[1..])
  }

  /** A transmission of packet p is counted and noted: it works, and is no repetition of the last packet. */
  predicate IsNoted(acks: seq<bool>, stamps: seq<UInt32>, p: nat, r: Reading)
    requires |acks| == |stamps| && p < |acks|
  {
    Due(acks[p], stamps[p], r.before) && r.ok && !(stamps[p] != 0 && p == |acks| - 1)
  }

  /** The transmission of packet p met the outside at reading r. */
  predicate Meets(acks: seq<bool>, stamps: seq<UInt32>, e: Event, r: Reading)
    requires |acks| == |stamps|
  {
    e.Data? ==> e.pid < |acks| && e.ok == r.ok && e.before == r.before && e.after == r.after
                && e.noted == IsNoted(acks, stamps, e.pid, r)
  }

  /** What is sent is what is due, at the reading there is for it. */
  predicate SendsDue(acks: seq<bool>, stamps: seq<UInt32>, next: nat, end: nat, env: Environment, k: nat, events: seq<Event>)
    requires |acks| == |stamps| && next <= end <= |acks|
  {
    forall p :: next <= p < end ==> (Sends(events, p) <==> Due(acks[p], stamps[p], env(k + p - next).before))
  }

  predicate SendsWithin(acks: seq<bool>, stamps: seq<UInt32>, next: nat, end: nat, env: Environment, k: nat, events: seq<Event>)
    requires |acks| == |stamps| && next <= end <= |acks|
  {
    forall i :: 0 <= i < |events| && events[i].Data? ==>
      next <= events[i].pid < end && Meets(acks, stamps, events[i], env(k + events[i].pid - next))
  }

  /** What works is noted, and nothing else. */
  predicate NotesSent(acks: seq<bool>, stamps: seq<UInt32>, next: nat, end: nat, env: Environment, k: nat, after: seq<UInt32>)
    requires |acks| == |stamps| == |after| && next <= end <= |acks|
  {
    forall p :: 0 <= p < |acks| ==>
      after[p] == if next <= p < end && IsNoted(acks, stamps, p, env(k + p - next)) then Tick(env(k + p - next).after) else stamps[p]
  }

  /** The burst from packet next on, at reading k, sweeps up to end. */
  predicate Sweeps(acks: seq<bool>, stamps: seq<UInt32>, next: nat, end: nat, env: Environment, k: nat, o: Outcome)
    requires |acks| == |stamps| && next <= end <= |acks|
  {
    && SendsDue(acks, stamps, next, end, env, k, o.events) && SendsWithin(acks, stamps, next, end, env, k, o.events)
    && Rising(o.events) && |o.stamps| == |stamps| && NotesSent(acks, stamps, next, end, env, k, o.stamps)
  }

  /** How it ends: with the eighth success before the last packet, or at the end of the file. There a repetition of the
      last packet keeps the place; otherwise the next burst begins at the smallest, and filler is sent if nothing
      counted. */
  predicate Ends(acks: seq<bool>, stamps: seq<UInt32>, next: nat, end: nat, count: nat, small: nat, env: Environment, k: nat,
                 o: Outcome)
    requires |acks| == |stamps| && next < end <= |acks|
  {
    var last, r := |acks| - 1, env(k + end - 1 - next);
    var repeats := end == |acks| && Due(acks[last], stamps[last], r.before) && r.ok && stamps[last] != 0;
    && (end < |acks| ==> count + Noted(o.events) == BURST && o.next == end && IsNoted(acks, stamps, end - 1, r))
    && (end == |acks| ==> count + Noted(o.events) <= BURST && o.next == if repeats then last else small)
    && (Dummy in o.events <==> end == |acks| && !repeats && count + Noted(o.events) == 0)
  }

  lemma SendsConcat(a: seq<Event>, b: seq<Event>, pid: nat)
    ensures Sends(a + b, pid) <==> Sends(a, pid) || Sends(b, pid)
  {
    if Sends(a, pid) {
      var i :| 0 <= i < |a| && a[i].Data? && a[i].pid == pid;
      assert (a + b)[i] == a[i];
    }
    if Sends(b, pid) {
      var i :| 0 <= i < |b| && b[i].Data? && b[i].pid == pid;
      assert (a + b)[|a| + i] == b[i];
    }
  }

  lemma {:induction false} NotedConcat(a: seq<Event>, b: seq<Event>)
    ensures Noted(a + b) == Noted(a) + Noted(b)
  {
    if a == [] {
      assert a + b == b;
    } else {
      assert (a + b)[1..] == a[1..] + b;
      NotedConcat(a[1..], b);
    }
  }

  /** One pass sweeps one packet. */
  lemma PassSweeps(acks: seq<bool>, stamps: seq<UInt32>, next: nat, env: Environment, k: nat)
    requires |acks| == |stamps| && next < |acks|
    ensures var p := Passed(acks, stamps, next, env(k));
            && |p.events| <= 1 && Sweeps(acks, stamps, next, next + 1, env, k, Outcome(p.stamps, next + 1, p.events))
            && Noted(p.events) == (if p.sent then 1 else 0) && Dummy !in p.events
            && (p.sent <==> IsNoted(acks, stamps, next, env(k)))
            && (p.repeated <==> next == |acks| - 1 && Due(acks[next], stamps[next], env(k).before) && env(k).ok && stamps[next] != 0)
  {
    var p := Passed(acks, stamps, next, env(k));
    if p.events != [] {
      assert p.events == [p.events[0]] && p.events[0].pid == next;
      assert p.events[1..] == [];
    }
  }

  lemma RisingConcat(a: seq<Event>, b: seq<Event>, mid: nat)
    requires Rising(a) && Rising(b)
    requires forall i :: 0 <= i < |a| ==> a[i].Data? && a[i].pid < mid
    requires forall i :: 0 <= i < |b| && b[i].Data? ==> mid <= b[i].pid
    ensures Rising(a + b)
  {
    var c := a + b;
    forall i, j | 0 <= i < j < |c|
      ensures InOrder(c[i], c[j])
    {
      if j < |a| {
        assert InOrder(a[i], a[j]);
      } else if i >= |a| {
        assert InOrder(b[i - |a|], b[j - |a|]);
      }
    }
  }

  lemma WithinJoin(acks: seq<bool>, stamps: seq<UInt32>, next: nat, end: nat, env: Environment, k: nat,
                   a: seq<Event>, after: seq<UInt32>, b: seq<Event>)
    requires |acks| == |stamps| == |after| && next < end <= |acks|
    requires forall p :: next < p < |acks| ==> after[p] == stamps[p]
    requires SendsWithin(acks, stamps, next, next + 1, env, k, a) && SendsWithin(acks, after, next + 1, end, env, k + 1, b)
    ensures SendsWithin(acks, stamps, next, end, env, k, a + b)
  {
    var events := a + b;
    forall i | 0 <= i < |events| && events[i].Data?
      ensures next <= events[i].pid < end && Meets(acks, stamps, events[i], env(k + events[i].pid - next))
    {
      if i >= |a| {
        assert events[i] == b[i - |a|];
      }
    }
  }

  lemma SentWithin(acks: seq<bool>, stamps: seq<UInt32>, next: nat, end: nat, env: Environment, k: nat, events: seq<Event>, p: nat)
    requires |acks| == |stamps| && next <= end <= |acks| && SendsWithin(acks, stamps, next, end, env, k, events)
    ensures Sends(events, p) ==> next <= p < end
  {
  }

  lemma DueJoin(acks: seq<bool>, stamps: seq<UInt32>, next: nat, end: nat, env: Environment, k: nat,
                a: seq<Event>, after: seq<UInt32>, b: seq<Event>)
    requires |acks| == |stamps| == |after| && next < end <= |acks|
    requires forall p :: next < p < |acks| ==> after[p] == stamps[p]
    requires SendsDue(acks, stamps, next, next + 1, env, k, a) && SendsDue(acks, after, next + 1, end, env, k + 1, b)
    requires SendsWithin(acks, stamps, next, next + 1, env, k, a) && SendsWithin(acks, after, next + 1, end, env, k + 1, b)
    ensures SendsDue(acks, stamps, next, end, env, k, a + b)
  {
    forall p | next <= p < end
      ensures Sends(a + b, p) <==> Due(acks[p], stamps[p], env(k + p - next).before)
    {
      SendsConcat(a, b, p);
      SentWithin(acks, stamps, next, next + 1, env, k, a, p);
      SentWithin(acks, after, next + 1, end, env, k + 1, b, p);
      assert k + 1 + p - (next + 1) == k + p - next;
    }
  }

  lemma NotesJoin(acks: seq<bool>, stamps: seq<UInt32>, next: nat, end: nat, env: Environment, k: nat,
                  after: seq<UInt32>, final: seq<UInt32>)
    requires |acks| == |stamps| == |after| == |final| && next < end <= |acks|
    requires NotesSent(acks, stamps, next, next + 1, env, k, after) && NotesSent(acks, after, next + 1, end, env, k + 1, final)
    ensures NotesSent(acks, stamps, next, end, env, k, final)
  {
    forall p | 0 <= p < |acks|
      ensures final[p] == if next <= p < end && IsNoted(acks, stamps, p, env(k + p - next)) then Tick(env(k + p - next).after) else stamps[p]
    {
      assert k + 1 + p - (next + 1) == k + p - next;
    }
  }

  /** One packet, then the others. */
  lemma SweepsJoin(acks: seq<bool>, stamps: seq<UInt32>, next: nat, end: nat, env: Environment, k: nat, a: Outcome, b: Outcome)
    requires |acks| == |stamps| == |a.stamps| && next < end <= |acks| && Sweeps(acks, stamps, next, next + 1, env, k, a)
    requires Sweeps(acks, a.stamps, next + 1, end, env, k + 1, b)
    requires forall i :: 0 <= i < |a.events| ==> a.events[i].Data?
    ensures Sweeps(acks, stamps, next, end, env, k, Outcome(b.stamps, b.next, a.events + b.events))
  {
    NotesJoin(acks, stamps, next, end, env, k, a.stamps, b.stamps);
    WithinJoin(acks, stamps, next, end, env, k, a.events, a.stamps, b.events);
    DueJoin(acks, stamps, next, end, env, k, a.events, a.stamps, b.events);
    RisingConcat(a.events, b.events, next + 1);
  }

  lemma NoneMore(acks: seq<bool>, stamps: seq<UInt32>, end: nat, env: Environment, k: nat, events: seq<Event>, next: nat)
    requires |acks| == |stamps| && end <= |acks| && (events == [] || events == [Dummy])
    ensures Sweeps(acks, stamps, end, end, env, k, Outcome(stamps, next, events)) && Noted(events) == 0
  {
    assert [Dummy][1..] == [];
  }

  lemma PassEnds(acks: seq<bool>, stamps: seq<UInt32>, next: nat, count: nat, small: nat, env: Environment, k: nat)
    requires |acks| == |stamps| && next < |acks| && count < BURST
    ensures var p := Passed(acks, stamps, next, env(k));
            var counted := if p.sent then count + 1 else count;
            var rest := LeftAfter(acks, p, next, counted, small, env, k);
            p.repeated || next + 1 == |acks| || counted == BURST ==>
              Ends(acks, stamps, next, next + 1, count, small, env, k, Behind(p.events, rest))
              && (rest.events == [] || rest.events == [Dummy]) && rest.stamps == p.stamps
  {
    var p := Passed(acks, stamps, next, env(k));
    var rest := LeftAfter(acks, p, next, if p.sent then count + 1 else count, small, env, k);
    PassSweeps(acks, stamps, next, env, k);
    NotedConcat(p.events, rest.events);
    assert [Dummy][1..] == [];
  }

  lemma EndsLater(acks: seq<bool>, stamps: seq<UInt32>, next: nat, end: nat, count: nat, small: nat, env: Environment, k: nat,
                  rest: Outcome)
    requires |acks| == |stamps| && next + 1 < end <= |acks|
    requires var p := Passed(acks, stamps, next, env(k));
             Ends(acks, p.stamps, next + 1, end, if p.sent then count + 1 else count, small, env, k + 1, rest)
    ensures Ends(acks, stamps, next, end, count, small, env, k, Behind(Passed(acks, stamps, next, env(k)).events, rest))
  {
    var p := Passed(acks, stamps, next, env(k));
    PassSweeps(acks, stamps, next, env, k);
    NotedConcat(p.events, rest.events);
    assert k + 1 + end - 1 - (next + 1) == k + end - 1 - next;
  }

  /** A burst sweeps a stretch of packets from where it begins: it sends those that are due at the reading it has for them,
      in order and once, and no others; and it ends as stated. */
  lemma {:induction false} BurstSweeps(acks: seq<bool>, stamps: seq<UInt32>, next: nat, count: nat, small: nat,
                                       env: Environment, k: nat) returns (end: nat)
    requires |acks| == |stamps| && next < |acks| && count < BURST
    ensures next < end <= |acks|
    ensures var o := Burst(acks, stamps, next, count, small, env, k);
            Sweeps(acks, stamps, next, end, env, k, o) && Ends(acks, stamps, next, end, count, small, env, k, o)
    decreases |acks| - next
  {
    var p := Passed(acks, stamps, next, env(k));
    var count' := if p.sent then count + 1 else count;
    var rest := LeftAfter(acks, p, next, count', small, env, k);
    BurstStep(acks, stamps, next, count, small, env, k);
    PassSweeps(acks, stamps, next, env, k);
    if p.repeated || next + 1 == |acks| || count' == BURST {
      end := next + 1;
      PassEnds(acks, stamps, next, count, small, env, k);
      NoneMore(acks, p.stamps, end, env, k + 1, rest.events, rest.next);
    } else {
      end := BurstSweeps(acks, p.stamps, next + 1, count', small, env, k + 1);
      EndsLater(acks, stamps, next, end, count, small, env, k, rest);
    }
    SweepsJoin(acks, stamps, next, end, env, k, Outcome(p.stamps, next + 1, p.events), rest);
  }
}
