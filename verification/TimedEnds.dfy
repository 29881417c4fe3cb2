/** Two ends whose retransmissions end and who drop what arrives out of order: each
    has its timer, and takes a packet only if its sequence number is above that of
    the last packet it took. Packets are numbered by their place in what their
    sender ever sent. */
module TimedEnds {
  import opened Octets
  import opened Messages
  import opened Protocol
  import opened TwoEnds
  import Timer

  /** What an end has beside its channel's state: the number of the last packet it
      took, plus one, the time of its last iteration and its timer. */
  datatype Side = Side(taken: nat, clock: nat, timer: Timer.Timer)

  datatype Timed = Timed(g: Global, x: Side, y: Side)

  datatype Step = PacketToX(k: nat) | PacketToY(k: nat) | IterateX(now: nat) | IterateY(now: nat)

  function PhaseOf(state: State): Timer.Phase {
    match state
    case DiscoveryInit => Timer.SendingHello
    case WaitingForHelloAck => Timer.SendingHello
    case SendingCommit => Timer.SendingOther
    case InitiatorSendingDhPart2 => Timer.SendingOther
    case InitiatorSendingConfirm2 => Timer.SendingOther
    case _ => Timer.Deaf
  }

  /** The timer is set on entering a state that sends, turned off on entering
      another. */
  function TimerAfter(e: Endpoint, o: Outcome, side: Side): Timer.Timer {
    if o.next.state == e.state then side.timer
    else if PhaseOf(o.next.state).Deaf? then side.timer.(on := false)
    else Timer.Armed(PhaseOf(o.next.state), side.clock)
  }

  /** The sequence number is stored once a packet has passed the parser or the test
      of repetition, except that of a Conf2ACK. Nothing the configured ends send is
      refused after that without a change of state. */
  predicate Takes(e: Endpoint, m: Message, o: Outcome) {
    (o.ret == Done || o.next != e) && !m.Conf2Ack?
  }

  /** An end once its state function has seen packet k. */
  function Took(e: Endpoint, side: Side, k: nat, m: Message, o: Outcome): Side {
    Side(if Takes(e, m, o) then k + 1 else side.taken, side.clock, TimerAfter(e, o, side))
  }

  /** Packet k of y reaches x. */
  function GiveX(c: Crypto, s: Timed, k: nat): Timed
    requires k < |s.g.sentY|
  {
    var m := s.g.sentY[k];
    var o := Receive(c, s.g.x, m);
    Timed(UpdateX(s.g, o), Took(s.g.x, s.x, k, m, o), s.y)
  }

  /** Packet k of x reaches y. */
  function GiveY(c: Crypto, s: Timed, k: nat): Timed
    requires k < |s.g.sentX|
  {
    var m := s.g.sentX[k];
    var o := Receive(c, s.g.y, m);
    Timed(UpdateY(s.g, o), s.x, Took(s.g.y, s.y, k, m, o))
  }

  /** An end once bzrtp_iterate has fired its timer. */
  function Iterated(state: State, side: Side, now: nat): Side {
    Side(side.taken, now, Timer.Iterate(PhaseOf(state), side.timer, now))
  }

  /** One step. A packet never sent, or whose number is not above the last taken, is
      dropped; time does not go back; a timer that is off or not due sends
      nothing. */
  function Proceed(c: Crypto, s: Timed, step: Step): (Timed, Ret) {
    match step
    case PacketToX(k) => if s.x.taken <= k < |s.g.sentY| then (GiveX(c, s, k), Receive(c, s.g.x, s.g.sentY[k]).ret) else (s, Done)
    case PacketToY(k) => if s.y.taken <= k < |s.g.sentX| then (GiveY(c, s, k), Receive(c, s.g.y, s.g.sentX[k]).ret) else (s, Done)
    case IterateX(now) =>
      if now < s.x.clock then (s, Done)
      else if Timer.Fires(s.x.timer, now) then
        (Timed(UpdateX(s.g, Tick(c, s.g.x)), Iterated(s.g.x.state, s.x, now), s.y), Tick(c, s.g.x).ret)
      else (s.(x := s.x.(clock := now)), Done)
    case IterateY(now) =>
      if now < s.y.clock then (s, Done)
      else if Timer.Fires(s.y.timer, now) then
        (Timed(UpdateY(s.g, Tick(c, s.g.y)), s.x, Iterated(s.g.y.state, s.y, now)), Tick(c, s.g.y).ret)
      else (s.(y := s.y.(clock := now)), Done)
  }

  function AfterSteps(c: Crypto, s: Timed, run: seq<Step>): Timed {
    if run == [] then s else Proceed(c, AfterSteps(c, s, run[..|run| - 1]), run[|run| - 1]).0
  }

  predicate FaultlessSteps(c: Crypto, s: Timed, run: seq<Step>) {
    run == [] || (FaultlessSteps(c, s, run[..|run| - 1]) && Proceed(c, AfterSteps(c, s, run[..|run| - 1]), run[|run| - 1]).1 != Fault)
  }

  /** A channel just started sends its Hello at the next iteration. */
  const JUST_STARTED := Side(0, 0, Timer.Armed(Timer.SendingHello, 0))

  function TimedBeginning(x: Config, y: Config): Timed {
    Timed(Global(Start(x), Start(y), [], []), JUST_STARTED, JUST_STARTED)
  }

  lemma OneStepMore(c: Crypto, s: Timed, run: seq<Step>, step: Step)
    ensures AfterSteps(c, s, run + [step]) == Proceed(c, AfterSteps(c, s, run), step).0
    ensures FaultlessSteps(c, s, run + [step]) <==> FaultlessSteps(c, s, run) && Proceed(c, AfterSteps(c, s, run), step).1 != Fault
  {
    assert (run + [step])[..|run|] == run;
  }

  lemma StepAdds(c: Crypto, s: Timed, run: seq<Step>, more: seq<Step>, last: Step)
    requires AfterSteps(c, s, run + more) == AfterSteps(c, AfterSteps(c, s, run), more)
    ensures AfterSteps(c, s, (run + more) + [last]) == AfterSteps(c, AfterSteps(c, s, run), more + [last])
  {
    OneStepMore(c, s, run + more, last);
    OneStepMore(c, AfterSteps(c, s, run), more, last);
  }

  lemma {:induction false} StepsAdd(c: Crypto, s: Timed, run: seq<Step>, more: seq<Step>)
    ensures AfterSteps(c, s, run + more) == AfterSteps(c, AfterSteps(c, s, run), more)
  {
    if more == [] {
      assert run + more == run;
    } else {
      var front, last := more[..|more| - 1], more[|more| - 1];
      assert run + more == (run + front) + [last] && more == front + [last];
      StepsAdd(c, s, run, front);
      StepAdds(c, s, run, front, last);
    }
  }

  // ---------------------------------------------------------------------
  // Timed runs are runs of TwoEnds

  /** What a step is to a network without timers and numbers. */
  function EventsOf(s: Timed, step: Step): seq<Event> {
    match step
    case PacketToX(k) => if s.x.taken <= k < |s.g.sentY| then [DeliverToX(s.g.sentY[k])] else []
    case PacketToY(k) => if s.y.taken <= k < |s.g.sentX| then [DeliverToY(s.g.sentX[k])] else []
    case IterateX(now) => if s.x.clock <= now && Timer.Fires(s.x.timer, now) then [TickX] else []
    case IterateY(now) => if s.y.clock <= now && Timer.Fires(s.y.timer, now) then [TickY] else []
  }

  function RunOf(c: Crypto, s: Timed, run: seq<Step>): seq<Event> {
    if run == [] then [] else RunOf(c, s, run[..|run| - 1]) + EventsOf(AfterSteps(c, s, run[..|run| - 1]), run[|run| - 1])
  }

  lemma StepIsEvent(c: Crypto, s: Timed, step: Step)
    ensures var events := EventsOf(s, step);
            if events == [] then Proceed(c, s, step).0.g == s.g && Proceed(c, s, step).1 == Done
            else events == [events[0]] && Happen(c, s.g, events[0]) == (Proceed(c, s, step).0.g, Proceed(c, s, step).1)
  {
  }

  lemma EventMore(c: Crypto, g: Global, run: seq<Event>, event: Event)
    ensures After(c, g, run + [event]) == Happen(c, After(c, g, run), event).0
    ensures Faultless(c, g, run + [event]) <==> Faultless(c, g, run) && Happen(c, After(c, g, run), event).1 != Fault
  {
    assert (run + [event])[..|run|] == run;
  }

  lemma StepIsEvents(c: Crypto, s: Timed, g: Global, run: seq<Event>, step: Step)
    requires s.g == After(c, g, run)
    ensures Proceed(c, s, step).0.g == After(c, g, run + EventsOf(s, step))
    ensures Faultless(c, g, run + EventsOf(s, step)) <==> Faultless(c, g, run) && Proceed(c, s, step).1 != Fault
  {
    StepIsEvent(c, s, step);
    var events := EventsOf(s, step);
    if events == [] {
      assert run + events == run;
    } else {
      EventMore(c, g, run, events[0]);
    }
  }

  /** Every timed run is a run of the network that repeats and reorders at will. */
  lemma {:induction false} TimedRunsAreRuns(c: Crypto, s: Timed, run: seq<Step>)
    ensures AfterSteps(c, s, run).g == After(c, s.g, RunOf(c, s, run))
    ensures FaultlessSteps(c, s, run) <==> Faultless(c, s.g, RunOf(c, s, run))
  {
    if run != [] {
      var front, last := run[..|run| - 1], run[|run| - 1];
      TimedRunsAreRuns(c, s, front);
      StepIsEvents(c, AfterSteps(c, s, front), s.g, RunOf(c, s, front), last);
    }
  }

  // ---------------------------------------------------------------------
  // The two ends change places

  function MirroredTimed(s: Timed): Timed {
    Timed(Mirrored(s.g), s.y, s.x)
  }

  function MirroredStep(step: Step): Step {
    match step
    case PacketToX(k) => PacketToY(k)
    case PacketToY(k) => PacketToX(k)
    case IterateX(now) => IterateY(now)
    case IterateY(now) => IterateX(now)
  }

  function MirroredSteps(run: seq<Step>): seq<Step> {
    if run == [] then [] else MirroredSteps(run[..|run| - 1]) + [MirroredStep(run[|run| - 1])]
  }

  lemma StepMirrored(c: Crypto, s: Timed, step: Step)
    ensures Proceed(c, MirroredTimed(s), MirroredStep(step)).0 == MirroredTimed(Proceed(c, s, step).0)
  {
  }

  lemma {:induction false} StepsMirrored(c: Crypto, s: Timed, run: seq<Step>)
    ensures AfterSteps(c, MirroredTimed(s), MirroredSteps(run)) == MirroredTimed(AfterSteps(c, s, run))
  {
    if run != [] {
      var front, last := run[..|run| - 1], run[|run| - 1];
      StepsMirrored(c, s, front);
      OneStepMore(c, MirroredTimed(s), MirroredSteps(front), MirroredStep(last));
      StepMirrored(c, AfterSteps(c, s, front), last);
    }
  }
}
