/** Sender and receiver over a channel that may lose, delay, repeat and reorder whatever it carries. */
module ArqChannel {
  import opened CInt
  import opened Options
  import opened ArqAck
  import opened ArqSend
  import opened ArqRuns
  import opened ArqSweep

  /** Both ends, what is under way, and the history: which packets were sent, the times noted, all transmissions, and when
      an acknowledgement made progress last. */
  datatype System = System(p: Progress, stamps: seq<UInt32>, sent: seq<bool>, received: seq<bool>, acksOut: seq<Ack>,
                           last: Times, log: seq<Event>, seen: Option<nat>, now: nat)

  function Packets(s: System): nat {
    |s.stamps|
  }

  /** An honest acknowledgement tells only of packets that have arrived. */
  predicate Truthful(received: seq<bool>, a: Ack) {
    && Fits(a, |received|)
    && (forall p :: 0 <= p < a.small ==> received[p])
    && (forall i :: 0 <= i < |a.bits| && a.bits[i] ==> received[a.small + i])
  }

  predicate Sized(s: System) {
    && |s.p.acks| == |s.stamps| && |s.sent| == |s.stamps| && |s.received| == |s.stamps| && |s.stamps| > 0
    && s.p.next < |s.stamps| && s.p.small <= |s.stamps| && (s.p.on ==> s.p.small < |s.stamps|)
  }

  predicate Sound(s: System)
    requires Sized(s)
  {
    && (forall p :: 0 <= p < |s.stamps| && s.p.acks[p] ==> s.received[p])
    && (forall p :: 0 <= p < |s.stamps| && s.received[p] ==> s.sent[p])
    && (forall p :: 0 <= p < s.p.small ==> s.p.acks[p])
    && (forall i :: 0 <= i < |s.acksOut| ==> Truthful(s.received, s.acksOut[i]))
  }

  function Never(n: nat): Times {
    seq(n, _ => None)
  }

  predicate History(s: System) {
    && Agree(s.stamps, s.last, s.now) && Spaced(Never(|s.stamps|), s.log) && s.last == NoteAll(Never(|s.stamps|), s.log)
    && s.p.ackSeen == (if s.seen.None? then 0 else Tick(s.seen.value)) && (s.seen.Some? ==> s.seen.value <= s.now)
  }

  predicate SystemOk(s: System) {
    Sized(s) && Sound(s) && History(s)
  }

  function NewSystem(packets: nat): System {
    var none := seq(packets, _ => false);
    System(Progress(none, 0, 0, 0, true), seq(packets, _ => 0), none, none, [], Never(packets), [], None, 0)
  }

  lemma NewSystemOk(packets: nat)
    requires packets > 0
    ensures SystemOk(NewSystem(packets))
  {
  }

  // Steps.

  /** Attempts count as sent: a transmission reported as failed may still arrive. */
  function MarkSent(sent: seq<bool>, events: seq<Event>): (r: seq<bool>)
    ensures |r| == |sent|
    ensures forall p :: 0 <= p < |sent| && sent[p] ==> r[p]
    decreases |events|
  {
    if events == [] then sent
    else
      var e := events[0];
      MarkSent(if e.Data? && e.pid < |sent| then sent[e.pid := true] else sent, events[1..])
  }

  function BurstOf(s: System, env: Environment): Outcome
    requires Sized(s)
  {
    Burst(s.p.acks, s.stamps, s.p.next, 0, s.p.small, env, 0)
  }

  /** The sending loop runs while the transfer is on. */
  ghost predicate CanBurst(s: System, env: Environment, until: nat) {
    s.p.on && s.now <= env(0).before && Timely(env, until)
  }

  function AfterBurst(s: System, env: Environment, until: nat): System
    requires Sized(s)
  {
    var o := BurstOf(s, env);
    s.(p := s.p.(next := o.next), stamps := o.stamps, sent := MarkSent(s.sent, o.events),
       last := NoteAll(s.last, o.events), log := s.log + o.events, now := until)
  }

  lemma BurstKeeps(s: System, env: Environment, until: nat)
    requires SystemOk(s) && CanBurst(s, env, until)
    ensures SystemOk(AfterBurst(s, env, until))
  {
    BurstIsProper(s.p.acks, s.stamps, s.p.next, 0, s.p.small, env, 0);
    BurstIsSpaced(s.p.acks, s.stamps, s.p.next, 0, s.p.small, env, 0, s.last, s.now, until);
    SpacedConcat(Never(|s.stamps|), s.log, BurstOf(s, env).events);
  }

  predicate CanArrive(s: System, pid: nat) {
    pid < |s.sent| && s.sent[pid]
  }

  function Arrived(s: System, pid: nat): System
    requires Sized(s) && CanArrive(s, pid)
  {
    s.(received := s.received[pid := true])
  }

  lemma ArrivalKeeps(s: System, pid: nat)
    requires SystemOk(s) && CanArrive(s, pid)
    ensures SystemOk(Arrived(s, pid))
  {
    forall i | 0 <= i < |s.acksOut|
      ensures Truthful(s.received[pid := true], s.acksOut[i])
    {
      assert Truthful(s.received, s.acksOut[i]);
    }
  }

  function Acknowledged(s: System, a: Ack): System {
    s.(acksOut := s.acksOut + [a])
  }

  lemma AcknowledgementKeeps(s: System, a: Ack)
    requires SystemOk(s) && Truthful(s.received, a)
    ensures SystemOk(Acknowledged(s, a))
  {
  }

  /** The sender polls; the channel hands it some acknowledgement under way last, or none. */
  predicate CanPoll(s: System, poll: Poll) {
    s.p.on && s.now <= poll.now <= poll.later && (poll.ack.Some? ==> poll.ack.value in s.acksOut)
  }

  lemma PollFits(s: System, poll: Poll)
    requires SystemOk(s) && CanPoll(s, poll)
    ensures PollOk(poll, |s.stamps|)
  {
  }

  function AfterPoll(s: System, poll: Poll): System
    requires Sized(s) && PollOk(poll, |s.stamps|)
  {
    s.(p := Polled(s.p, s.stamps, poll), seen := if ResultOf(poll, |s.stamps|) > 0 then Some(poll.now) else s.seen,
       now := poll.later)
  }

  lemma PollKeeps(s: System, poll: Poll)
    requires SystemOk(s) && CanPoll(s, poll) && PollOk(poll, |s.stamps|)
    ensures SystemOk(AfterPoll(s, poll))
  {
    if poll.ack.Some? {
      var a := poll.ack.value;
      ResumeAtEnd(a, |s.stamps|);
      assert Truthful(s.received, a);
      forall p | 0 <= p < Resume(a)
        ensures Marked(s.p.acks, a)[p]
      {
        BelowResumeIsMarked(s.p.acks, a, p);
      }
    }
    AgreeLater(s.stamps, s.last, s.now, poll.later);
  }

  datatype Step =
    | DoBurst(env: Environment, until: nat) | Arrive(pid: nat) | Acknowledge(a: Ack) | DoPoll(poll: Poll)

  ghost predicate Possible(s: System, e: Step) {
    match e
    case DoBurst(env, until) => CanBurst(s, env, until)
    case Arrive(pid) => CanArrive(s, pid)
    case Acknowledge(a) => Truthful(s.received, a)
    case DoPoll(poll) => CanPoll(s, poll)
  }

  type Running = s: System | SystemOk(s) witness (NewSystemOk(1); NewSystem(1))

  function Next(s: Running, e: Step): Running
    requires Possible(s, e)
  {
    match e
    case DoBurst(env, until) =>
      BurstKeeps(s, env, until);
      AfterBurst(s, env, until)
    case Arrive(pid) =>
      ArrivalKeeps(s, pid);
      Arrived(s, pid)
    case Acknowledge(a) =>
      AcknowledgementKeeps(s, a);
      Acknowledged(s, a)
    case DoPoll(poll) =>
      PollFits(s, poll);
      PollKeeps(s, poll);
      AfterPoll(s, poll)
  }

  /** The steps lead from s to t. */
  ghost predicate Leads(s: Running, steps: seq<Step>, t: Running)
    decreases |steps|
  {
    if steps == [] then s == t
    else Possible(s, steps[0]) && Leads(Next(s, steps[0]), steps[1..], t)
  }

  // What holds in every run.

  /** The sender's knowledge is never ahead of the truth, and never taken back. When sending would resume at the end, every
      packet is acknowledged and the receiver has the whole file. */
  lemma {:induction false} KnowledgeIsSound(s: Running, steps: seq<Step>, t: Running)
    requires Leads(s, steps, t)
    ensures Packets(t) == Packets(s)
    ensures forall p :: 0 <= p < Packets(s) ==>
              && (s.p.acks[p] ==> t.p.acks[p]) && (s.received[p] ==> t.received[p])
              && (t.p.acks[p] ==> t.received[p]) && (t.received[p] ==> t.sent[p]) && (p < t.p.small ==> t.p.acks[p])
    ensures t.p.small == Packets(t) ==> forall p :: 0 <= p < Packets(t) ==> t.p.acks[p] && t.received[p]
    decreases |steps|
  {
    if steps != [] {
      KnowledgeIsSound(Next(s, steps[0]), steps[1..], t);
      OneStepGrows(s, steps[0]);
    }
  }

  lemma OneStepGrows(s: Running, e: Step)
    requires Possible(s, e)
    ensures Packets(Next(s, e)) == Packets(s)
    ensures forall p :: 0 <= p < Packets(s) ==>
              (s.p.acks[p] ==> Next(s, e).p.acks[p]) && (s.received[p] ==> Next(s, e).received[p])
  {
    match e
    case DoBurst(env, until) => BurstIsProper(s.p.acks, s.stamps, s.p.next, 0, s.p.small, env, 0);
    case _ =>
  }

  /** A transfer goes off exactly when a poll finds the end of the file, or makes no progress when the last progress was
      seven seconds ago by the clock. Progress at a time that reads as 0 counts as none, and as long as there was none the
      transfer never goes off for silence. */
  lemma OffExactlyWhen(s: Running, e: Step)
    requires Possible(s, e) && s.p.on
    ensures !Next(s, e).p.on <==>
            && e.DoPoll?
            && (Next(s, e).p.small == Packets(s)
                || (ResultOf(e.poll, Packets(s)) <= 0 && s.seen.Some? && Tick(s.seen.value) != 0
                    && (e.poll.now - s.seen.value) % TWO32 >= ACK_TIMEOUT))
  {
    if e.DoPoll? {
      PollFits(s, e.poll);
      if s.seen.Some? {
        TickDifference(s.seen.value, e.poll.now);
      }
    }
  }

  /** After a poll that leaves the transfer on, if the oldest packet not acknowledged is overdue or progress was made,
      sending goes on there. */
  lemma OldestFirst(s: Running, poll: Poll)
    requires Possible(s, DoPoll(poll)) && Next(s, DoPoll(poll)).p.on
    ensures var t := Next(s, DoPoll(poll));
            && t.p.small < Packets(t)
            && (ResultOf(poll, Packets(s)) > 0 || Sub32(Tick(poll.later), t.stamps[t.p.small]) >= RESEND_AFTER
                ==> t.p.next == t.p.small)
  {
    PollFits(s, poll);
  }

  /** In every run from the start, every transmission comes long enough after the one of that packet noted last; and all
      that work are noted, except repetitions of the last packet. */
  lemma RunsAreSpaced(packets: nat, steps: seq<Step>, t: Running)
    requires packets > 0 && SystemOk(NewSystem(packets)) && Leads(NewSystem(packets), steps, t)
    ensures Spaced(Never(packets), t.log)
    ensures forall i :: 0 <= i < |t.log| && t.log[i].Data? && t.log[i].ok && !t.log[i].noted ==> t.log[i].pid == packets - 1
  {
    KnowledgeIsSound(NewSystem(packets), steps, t);
    LogIsProper(NewSystem(packets), steps, t);
  }

  predicate ProperLog(s: System) {
    forall i :: 0 <= i < |s.log| && s.log[i].Data? && s.log[i].ok && !s.log[i].noted ==> s.log[i].pid == |s.stamps| - 1
  }

  lemma StepKeepsLog(s: Running, e: Step)
    requires Possible(s, e) && ProperLog(s)
    ensures ProperLog(Next(s, e))
  {
    if e.DoBurst? {
      BurstIsProper(s.p.acks, s.stamps, s.p.next, 0, s.p.small, e.env, 0);
    }
  }

  lemma {:induction false} LogIsProper(s: Running, steps: seq<Step>, t: Running)
    requires Leads(s, steps, t) && ProperLog(s)
    ensures ProperLog(t)
    decreases |steps|
  {
    if steps != [] {
      StepKeepsLog(s, steps[0]);
      LogIsProper(Next(s, steps[0]), steps[1..], t);
    }
  }

  /** And the next burst sends it, if it is still due and not acknowledged. */
  lemma OldestIsSent(s: Running, poll: Poll, env: Environment, until: nat)
    requires Possible(s, DoPoll(poll)) && Next(s, DoPoll(poll)).p.on
    requires var t := Next(s, DoPoll(poll));
             && (ResultOf(poll, Packets(s)) > 0 || Sub32(Tick(poll.later), t.stamps[t.p.small]) >= RESEND_AFTER)
             && Possible(t, DoBurst(env, until)) && Due(t.p.acks[t.p.small], t.stamps[t.p.small], env(0).before)
    ensures var t := Next(s, DoPoll(poll)); Sends(BurstOf(t, env).events, t.p.small)
  {
    var t := Next(s, DoPoll(poll));
    OldestFirst(s, poll);
    var end := BurstSweeps(t.p.acks, t.stamps, t.p.next, 0, t.p.small, env, 0);
  }

  // A receiver that tells all it knows.

  /** The first packet missing, and which of the n from it on have arrived. */
  function Report(received: seq<bool>, n: nat): Ack {
    var gap := FirstGap(received);
    Ack(gap, received[gap..if gap + n <= |received| then gap + n else |received|])
  }

  /** It is truthful; it brings the sender up to date as far as it reaches; and sending resumes at what is missing. */
  lemma ReportBringsUpToDate(acks: seq<bool>, received: seq<bool>, n: nat, p: nat)
    requires |acks| == |received| && p < |received|
    ensures var a := Report(received, n);
            && Truthful(received, a) && Resume(a) == FirstGap(received)
            && (p < a.small + |a.bits| ==> (Marked(acks, a)[p] <==> acks[p] || received[p]))
            && (p >= a.small + |a.bits| ==> Marked(acks, a)[p] == acks[p])
  {
    var a := Report(received, n);
    assert a.bits != [] ==> !a.bits[0];
  }

  /** Once everything has arrived, such a report ends the transfer. */
  lemma FullReportEnds(s: Running, poll: Poll, n: nat)
    requires s.p.on && forall p :: 0 <= p < Packets(s) ==> s.received[p]
    requires poll.ack == Some(Report(s.received, n)) && Possible(s, DoPoll(poll))
    ensures !Next(s, DoPoll(poll)).p.on && Next(s, DoPoll(poll)).p.small == Packets(s)
  {
    PollFits(s, poll);
    ReportBringsUpToDate(s.p.acks, s.received, n, 0);
    OffExactlyWhen(s, DoPoll(poll));
  }
}
