/** Which states two honest ends can still leave for security, their timers giving up
    after their retransmissions and packets that arrive out of order being
    dropped. */
module Progress {
  import opened Octets
  import opened Negotiation
  import opened Messages
  import opened Protocol
  import opened Exchange
  import opened Transitions
  import opened Runs
  import opened TwoEnds
  import opened TimedEnds
  import opened InOrder
  import Timer

  function Rank(stage: Stage): nat {
    match stage
    case Discovering => 0
    case HelloAcked => 1
    case Greeted => 1
    case Committing => 2
    case Initiating => 3
    case Responding => 3
    case InitiatorConfirming => 4
    case ResponderConfirming => 4
    case InitiatorSecure => 5
    case ResponderSecure => 5
  }

  predicate Later(from: Stage, to: Stage) {
    match from
    case Discovering => to != Discovering
    case HelloAcked => to !in {Discovering, HelloAcked, Greeted}
    case Greeted => to !in {Discovering, HelloAcked, Greeted}
    case Committing => to !in {Discovering, HelloAcked, Greeted, Committing}
    case Initiating => to in {InitiatorConfirming, InitiatorSecure}
    case Responding => to in {ResponderConfirming, ResponderSecure}
    case InitiatorConfirming => to == InitiatorSecure
    case ResponderConfirming => to == ResponderSecure
    case _ => false
  }


  predicate BothCommitting(g: Global) {
    g.x.state == SendingCommit && g.y.state == SendingCommit
  }

  /** One end moved on, the other is where it was; they are not both sending
      Commits, and none waits for a Hello. */
  predicate Advances(g: Global, h: Global) {
    && ((Later(StageOf(g.x), StageOf(h.x)) && h.y == g.y) || (Later(StageOf(g.y), StageOf(h.y)) && h.x == g.x))
    && !BothCommitting(h) && h.x.state != WaitingForHello && h.y.state != WaitingForHello
  }

  /** Some steps take an end to a later stage. */
  ghost predicate CanAdvance(c: Crypto, s: Timed) {
    exists run :: Advances(s.g, AfterSteps(c, s, run).g)
  }

  /** A move of one state function to a later one. */
  predicate MovesTo(e: Endpoint, next: Endpoint) {
    match e.state
    case DiscoveryInit => next.state == WaitingForHelloAck
    case WaitingForHello => next.state == SendingCommit
    case WaitingForHelloAck =>
      next.state == SendingCommit || next.state == ResponderSendingDhPart1 || next.state == ResponderSendingConfirm1
    case SendingCommit =>
      || next.state == ResponderSendingDhPart1 || next.state == ResponderSendingConfirm1
      || next.state == InitiatorSendingDhPart2 || next.state == InitiatorSendingConfirm2
    case ResponderSendingDhPart1 => next.state == ResponderSendingConfirm1
    case InitiatorSendingDhPart2 => next.state == InitiatorSendingConfirm2
    case ResponderSendingConfirm1 => next.state == Secure && next.role == Responder
    case InitiatorSendingConfirm2 => next.state == Secure && next.role == Initiator
    case Secure => false
  }

  lemma MovesLater(g: Global, h: Global)
    requires h.y == g.y && MovesTo(g.x, h.x) && (h.x.state == SendingCommit ==> g.y.state != SendingCommit)
    requires g.y.state != WaitingForHello
    ensures Advances(g, h)
  {
  }

  lemma Dispatch(c: Crypto, e: Endpoint, m: Message)
    ensures e.state == DiscoveryInit ==> Receive(c, e, m) == OnDiscoveryInit(c, e, m)
    ensures e.state == WaitingForHello ==> Receive(c, e, m) == OnWaitingForHello(c, e, m)
    ensures e.state == WaitingForHelloAck ==> Receive(c, e, m) == OnWaitingForHelloAck(c, e, m)
    ensures e.state == SendingCommit ==> Receive(c, e, m) == OnSendingCommit(c, e, m)
    ensures e.state == ResponderSendingDhPart1 ==> Receive(c, e, m) == OnResponderSendingDhPart1(c, e, m)
    ensures e.state == InitiatorSendingDhPart2 ==> Receive(c, e, m) == OnInitiatorSendingDhPart2(c, e, m)
    ensures e.state == ResponderSendingConfirm1 ==> Receive(c, e, m) == OnResponderSendingConfirm1(c, e, m)
    ensures e.state == InitiatorSendingConfirm2 ==> Receive(c, e, m) == OnInitiatorSendingConfirm2(c, e, m)
    ensures e.state == Secure ==> Receive(c, e, m) == OnSecure(c, e, m)
  {
  }

  // ---------------------------------------------------------------------
  // Two ways on: a packet already sent, or a Hello the timer still sends

  lemma OneStep(c: Crypto, s: Timed, step: Step)
    ensures AfterSteps(c, s, [step]) == Proceed(c, s, step).0
  {
    assert [] + [step] == [step];
    OneStepMore(c, s, [], step);
  }

  lemma TwoSteps(c: Crypto, s: Timed, first: Step, second: Step)
    ensures AfterSteps(c, s, [first, second]) == Proceed(c, Proceed(c, s, first).0, second).0
  {
    assert [first] + [second] == [first, second];
    OneStep(c, s, first);
    OneStepMore(c, s, [first], second);
  }

  lemma SentPacketAdvances(c: Crypto, s: Timed, k: nat, m: Message, o: Outcome)
    requires s.x.taken <= k < |s.g.sentY| && s.g.sentY[k] == m && Receive(c, s.g.x, m) == o
    requires MovesTo(s.g.x, o.next) && (o.next.state == SendingCommit ==> s.g.y.state != SendingCommit)
    requires s.g.y.state != WaitingForHello
    ensures CanAdvance(c, s)
  {
    OneStep(c, s, PacketToX(k));
    MovesLater(s.g, GiveX(c, s, k).g);
    assert Advances(s.g, AfterSteps(c, s, [PacketToX(k)]).g);
  }

  /** A time at which a timer that is on is due. */
  function DueTime(side: Side): nat {
    if side.clock <= side.timer.firingTime then side.timer.firingTime else side.clock
  }

  lemma TimerSends(c: Crypto, s: Timed, hello: Message)
    requires s.y.timer.on && Tick(c, s.g.y) == Outcome(s.g.y, [hello], Done)
    ensures var h := Proceed(c, s, IterateY(DueTime(s.y))).0;
            h.g == s.g.(sentY := s.g.sentY + [hello]) && h.x == s.x
  {
  }

  lemma TimerAdvances(c: Crypto, s: Timed, hello: Message, o: Outcome)
    requires s.y.timer.on && Tick(c, s.g.y) == Outcome(s.g.y, [hello], Done)
    requires s.x.taken <= |s.g.sentY| && Receive(c, s.g.x, hello) == o
    requires MovesTo(s.g.x, o.next) && (o.next.state == SendingCommit ==> s.g.y.state != SendingCommit)
    requires s.g.y.state != WaitingForHello
    ensures CanAdvance(c, s)
  {
    var tick, packet := IterateY(DueTime(s.y)), PacketToX(|s.g.sentY|);
    var called := Proceed(c, s, tick).0;
    TimerSends(c, s, hello);
    TwoSteps(c, s, tick, packet);
    MovesLater(s.g, GiveX(c, called, |s.g.sentY|).g);
    assert Advances(s.g, AfterSteps(c, s, [tick, packet]).g);
  }

  /** The Hellos of an end are all the same. */
  predicate OneHello(sent: seq<Message>, hello: Message) {
    forall k :: 0 <= k < |sent| && IsHello(Some(sent[k])) ==> sent[k] == hello
  }

  lemma SentHellosAreOne(t: Script, u: Script, dh: bool, stage: Stage, sent: seq<Message>)
    requires AllMaySend(u, t, dh, stage, sent) && Typed(t) && Typed(u) && u.initiatorHello == t.responderHello
    ensures OneHello(sent, t.responderHello)
  {
    forall k | 0 <= k < |sent| && IsHello(Some(sent[k])) ensures sent[k] == t.responderHello {
      MessagesTell(t, u, dh, stage, sent[k]);
    }
  }

  lemma HelloAdvances(c: Crypto, s: Timed, hello: Message, o: Outcome)
    requires s.g.x.state == DiscoveryInit || s.g.x.state == WaitingForHello
    requires OneHello(s.g.sentY, hello) && s.x.taken <= |s.g.sentY|
    requires HasHello(s.g.sentY, s.x.taken) || (s.y.timer.on && Tick(c, s.g.y) == Outcome(s.g.y, [hello], Done))
    requires Receive(c, s.g.x, hello) == o && MovesTo(s.g.x, o.next) && SendsHellos(s.g.y.state)
    ensures CanAdvance(c, s)
  {
    if HasHello(s.g.sentY, s.x.taken) {
      var k :| s.x.taken <= k < |s.g.sentY| && IsHello(Some(s.g.sentY[k]));
      SentPacketAdvances(c, s, k, hello, o);
    } else {
      TimerAdvances(c, s, hello, o);
    }
  }

  lemma PacketIsPending(s: Timed, gx: bool, gy: bool, m: Message)
    requires Ordered(s, gx, gy) && Packet(s.g.y) == Some(m) && Awaits(s.g.x.state, m) && (Ignored(s.g.x, m) ==> gx)
    ensures s.x.taken < |s.g.sentY| && s.g.sentY[|s.g.sentY| - 1] == m && s.g.y.state != WaitingForHello
  {
  }

  // A packet already sent, for each state function.

  lemma PacketAdvancesGreeted(c: Crypto, s: Timed, gx: bool, gy: bool, m: Message, o: Outcome)
    requires Ordered(s, gx, gy) && Packet(s.g.y) == Some(m) && IsCommit(Some(m))
    requires s.g.x.state == WaitingForHelloAck && OnWaitingForHelloAck(c, s.g.x, m) == o
    requires o.next.state == ResponderSendingDhPart1 || o.next.state == ResponderSendingConfirm1
    ensures CanAdvance(c, s)
  {
    Dispatch(c, s.g.x, m);
    PacketIsPending(s, gx, gy, m);
    SentPacketAdvances(c, s, |s.g.sentY| - 1, m, o);
  }

  lemma PacketAdvancesCommitting(c: Crypto, s: Timed, gx: bool, gy: bool, m: Message, o: Outcome)
    requires Ordered(s, gx, gy) && Packet(s.g.y) == Some(m) && (if IsCommit(Some(m)) then gx else IsDhPart1(m) || m.Confirm1?)
    requires s.g.x.state == SendingCommit && OnSendingCommit(c, s.g.x, m) == o
    requires || o.next.state == ResponderSendingDhPart1 || o.next.state == ResponderSendingConfirm1
             || o.next.state == InitiatorSendingDhPart2 || o.next.state == InitiatorSendingConfirm2
    ensures CanAdvance(c, s)
  {
    Dispatch(c, s.g.x, m);
    PacketIsPending(s, gx, gy, m);
    SentPacketAdvances(c, s, |s.g.sentY| - 1, m, o);
  }

  lemma PacketAdvancesResponding(c: Crypto, s: Timed, gx: bool, gy: bool, m: Message, o: Outcome)
    requires Ordered(s, gx, gy) && Packet(s.g.y) == Some(m) && IsDhPart2(m)
    requires s.g.x.state == ResponderSendingDhPart1 && OnResponderSendingDhPart1(c, s.g.x, m) == o
    requires o.next.state == ResponderSendingConfirm1
    ensures CanAdvance(c, s)
  {
    Dispatch(c, s.g.x, m);
    PacketIsPending(s, gx, gy, m);
    SentPacketAdvances(c, s, |s.g.sentY| - 1, m, o);
  }

  lemma PacketAdvancesInitiating(c: Crypto, s: Timed, gx: bool, gy: bool, m: Message, o: Outcome)
    requires Ordered(s, gx, gy) && Packet(s.g.y) == Some(m) && m.Confirm1?
    requires s.g.x.state == InitiatorSendingDhPart2 && OnInitiatorSendingDhPart2(c, s.g.x, m) == o
    requires o.next.state == InitiatorSendingConfirm2
    ensures CanAdvance(c, s)
  {
    Dispatch(c, s.g.x, m);
    PacketIsPending(s, gx, gy, m);
    SentPacketAdvances(c, s, |s.g.sentY| - 1, m, o);
  }

  lemma PacketAdvancesResponderConfirming(c: Crypto, s: Timed, gx: bool, gy: bool, m: Message, o: Outcome)
    requires Ordered(s, gx, gy) && Packet(s.g.y) == Some(m) && m.Confirm2?
    requires s.g.x.state == ResponderSendingConfirm1 && OnResponderSendingConfirm1(c, s.g.x, m) == o
    requires o.next.state == Secure && o.next.role == Responder
    ensures CanAdvance(c, s)
  {
    Dispatch(c, s.g.x, m);
    PacketIsPending(s, gx, gy, m);
    SentPacketAdvances(c, s, |s.g.sentY| - 1, m, o);
  }

  lemma PacketAdvancesInitiatorConfirming(c: Crypto, s: Timed, gx: bool, gy: bool, m: Message, o: Outcome)
    requires Ordered(s, gx, gy) && Packet(s.g.y) == Some(m) && m.Conf2Ack?
    requires s.g.x.state == InitiatorSendingConfirm2 && OnInitiatorSendingConfirm2(c, s.g.x, m) == o
    requires o.next.state == Secure && o.next.role == Initiator
    ensures CanAdvance(c, s)
  {
    Dispatch(c, s.g.x, m);
    PacketIsPending(s, gx, gy, m);
    SentPacketAdvances(c, s, |s.g.sentY| - 1, m, o);
  }

  lemma HelloAdvancesDiscovering(c: Crypto, s: Timed, hello: Message, o: Outcome)
    requires s.g.x.state == DiscoveryInit && s.x.taken == 0 && OneHello(s.g.sentY, hello)
    requires SendsHellos(s.g.y.state) && Calls(s.g.y, s.y, s.g.sentY) && Tick(c, s.g.y) == Outcome(s.g.y, [hello], Done)
    requires OnDiscoveryInit(c, s.g.x, hello) == o && o.next.state == WaitingForHelloAck
    ensures CanAdvance(c, s)
  {
    Dispatch(c, s.g.x, hello);
    HelloAdvances(c, s, hello, o);
  }

  lemma HelloAdvancesHelloAcked(c: Crypto, s: Timed, hello: Message, o: Outcome)
    requires s.g.x.state == WaitingForHello && s.g.y.state == WaitingForHelloAck
    requires s.x.taken <= |s.g.sentY| && OneHello(s.g.sentY, hello)
    requires s.y.timer.on || HasHello(s.g.sentY, s.x.taken)
    requires Tick(c, s.g.y) == Outcome(s.g.y, [hello], Done)
    requires OnWaitingForHello(c, s.g.x, hello) == o && o.next.state == SendingCommit
    ensures CanAdvance(c, s)
  {
    Dispatch(c, s.g.x, hello);
    HelloAdvances(c, s, hello, o);
  }

  lemma HelloAckAdvances(c: Crypto, s: Timed, o: Outcome)
    requires s.g.x.state == WaitingForHelloAck && s.g.y.state == WaitingForHelloAck && HasHelloAck(s.g.sentY, s.x.taken)
    requires OnWaitingForHelloAck(c, s.g.x, HelloAck) == o && o.next.state == SendingCommit
    ensures CanAdvance(c, s)
  {
    Dispatch(c, s.g.x, HelloAck);
    var k :| s.x.taken <= k < |s.g.sentY| && s.g.sentY[k] == HelloAck;
    SentPacketAdvances(c, s, k, HelloAck, o);
  }

  lemma DiscoveringTicks(c: Crypto, x: Party, y: Party, t: Script, e: Endpoint)
    requires t.initiatorHello == SelfHello(c, x.cfg) && (e == Start(x.cfg) || IsGreeted(x, y, t, e))
    ensures Tick(c, e) == Outcome(e, [t.initiatorHello], Done) && SendsHellos(e.state)
  {
  }

  // ---------------------------------------------------------------------
  // What moves each end on

  lemma DiscoveringMovesOn(c: Crypto, x: Party, y: Party, t: Script, u: Script)
    requires Setting(c, x, y, t, u)
    ensures OnDiscoveryInit(c, Start(x.cfg), t.responderHello).next.state == WaitingForHelloAck
    ensures OnWaitingForHello(c, Start(x.cfg).(state := WaitingForHello), t.responderHello).next.state == SendingCommit
  {
    OnHelloInDiscovery(c, x, y, t, Start(x.cfg));
    OnHelloOnceAcked(c, x, y, t, Start(x.cfg).(state := WaitingForHello));
  }

  lemma GreetedMovesOn(c: Crypto, x: Party, y: Party, t: Script, u: Script, e: Endpoint)
    requires Setting(c, x, y, t, u) && IsGreeted(x, y, t, e)
    ensures OnWaitingForHelloAck(c, e, HelloAck).next.state == SendingCommit
    ensures OnWaitingForHelloAck(c, e, u.commit) == TurnIntoResponder(c, e, u.commit)
    ensures BecomesResponder(x, y, u, TurnIntoResponder(c, e, u.commit))
  {
    OnHelloAckWhenGreeted(c, x, y, t, e);
    TurnsIntoResponder(c, x, y, t, u, e);
    OnCommitWhenGreeted(c, x, y, t, u, e);
  }

  lemma RespondingMovesOn(c: Crypto, x: Party, y: Party, t: Script, u: Script, e: Endpoint)
    requires Setting(c, x, y, t, u) && IsResponding(x, y, u, e)
    ensures ParseDhPart(c, e, u.dhPart2, false) == 0
    ensures OnDhPart2(c, e, u.dhPart2).next.state == ResponderSendingConfirm1
  {
    DhPart2Accepted(c, x, y, u, e);
    SecretsMatch(c, y, x, u);
    ResponderDerives(c, x, y, u, e);
  }

  lemma OnAcceptedDhPart2(c: Crypto, e: Endpoint, m: Message)
    requires m.Signed? && m.body.DhPart2Body? && e.selfDhPart.Some? && ParseDhPart(c, e, m, false) == 0
    ensures OnResponderSendingDhPart1(c, e, m) == OnDhPart2(c, e, m)
  {
  }

  lemma InitiatingMovesOn(c: Crypto, x: Party, y: Party, t: Script, u: Script, e: Endpoint)
    requires Setting(c, x, y, t, u) && IsInitiating(x, y, t, e)
    ensures OnConfirm1(c, e, t.confirm1).next.state == InitiatorSendingConfirm2
  {
    InitiatorConfirms(c, x, y, t, e);
  }

  lemma OnConfirm1WhenInitiating(c: Crypto, e: Endpoint, m: Message)
    requires m.Confirm1?
    ensures OnInitiatorSendingDhPart2(c, e, m) == OnConfirm1(c, e, m)
  {
  }

  lemma ResponderConfirmingMovesOn(c: Crypto, x: Party, y: Party, t: Script, u: Script, e: Endpoint)
    requires Setting(c, x, y, t, u) && IsResponderConfirming(x, y, u, e)
    ensures var next := OnResponderSendingConfirm1(c, e, u.confirm2).next; next.state == Secure && next.role == Responder
  {
    ResponderConfirmingMeetsConfirm2(c, x, y, t, u, e);
  }

  lemma InitiatorConfirmingMovesOn(c: Crypto, x: Party, y: Party, t: Script, u: Script, e: Endpoint)
    requires Setting(c, x, y, t, u) && IsInitiatorConfirming(x, y, t, e)
    ensures var next := OnInitiatorSendingConfirm2(c, e, Conf2Ack).next; next.state == Secure && next.role == Initiator
  {
    SecretsMatch(c, x, y, t);
    InitiatorSecures(c, x, y, t, e);
  }

  // ---------------------------------------------------------------------
  // Each combination of stages: x is the end that moves

  lemma HelloReachesDiscovering(c: Crypto, x: Party, y: Party, t: Script, u: Script, s: Timed)
    requires Setting(c, x, y, t, u) && s.g.x == Start(x.cfg) && s.x.taken == 0 && Calls(s.g.y, s.y, s.g.sentY)
    requires u.initiatorHello == SelfHello(c, y.cfg) == t.responderHello && OneHello(s.g.sentY, t.responderHello)
    requires s.g.y == Start(y.cfg) || IsGreeted(y, x, u, s.g.y)
    ensures CanAdvance(c, s)
  {
    DiscoveringTicks(c, y, x, u, s.g.y);
    DiscoveringMovesOn(c, x, y, t, u);
    HelloAdvancesDiscovering(c, s, t.responderHello, OnDiscoveryInit(c, s.g.x, t.responderHello));
  }

  lemma HelloReachesHelloAcked(c: Crypto, x: Party, y: Party, t: Script, u: Script, s: Timed)
    requires Setting(c, x, y, t, u) && s.g.x == Start(x.cfg).(state := WaitingForHello)
    requires u.initiatorHello == SelfHello(c, y.cfg) == t.responderHello && OneHello(s.g.sentY, t.responderHello)
    requires IsGreeted(y, x, u, s.g.y)
    requires s.x.taken <= |s.g.sentY| && (s.y.timer.on || HasHello(s.g.sentY, s.x.taken))
    ensures CanAdvance(c, s)
  {
    DiscoveringTicks(c, y, x, u, s.g.y);
    DiscoveringMovesOn(c, x, y, t, u);
    HelloAdvancesHelloAcked(c, s, t.responderHello, OnWaitingForHello(c, s.g.x, t.responderHello));
  }

  lemma HelloAckReaches(c: Crypto, x: Party, y: Party, t: Script, u: Script, s: Timed)
    requires Setting(c, x, y, t, u) && IsGreeted(x, y, t, s.g.x) && s.g.y.state == WaitingForHelloAck
    requires HasHelloAck(s.g.sentY, s.x.taken)
    ensures CanAdvance(c, s)
  {
    GreetedMovesOn(c, x, y, t, u, s.g.x);
    HelloAckAdvances(c, s, OnWaitingForHelloAck(c, s.g.x, HelloAck));
  }

  // The packet of each stage.
  lemma StagePackets(x: Party, y: Party, t: Script, u: Script, e: Endpoint)
    requires Typed(t) && Typed(u) && AtStage(x, y, t, u, e)
    ensures StageOf(e) == Committing ==> Packet(e) == Some(t.commit) && IsCommit(Some(t.commit))
    ensures StageOf(e) == Responding ==> Packet(e) == Some(u.dhPart1) && IsDhPart1(u.dhPart1)
    ensures StageOf(e) == Initiating ==> Packet(e) == Some(t.dhPart2) && IsDhPart2(t.dhPart2)
    ensures StageOf(e) == ResponderConfirming ==> Packet(e) == Some(u.confirm1) && u.confirm1.Confirm1?
    ensures StageOf(e) == InitiatorConfirming ==> Packet(e) == Some(t.confirm2) && t.confirm2.Confirm2?
    ensures StageOf(e) == ResponderSecure ==> Packet(e) == Some(Conf2Ack)
  {
  }

  lemma CommitReachesGreeted(c: Crypto, x: Party, y: Party, t: Script, u: Script, s: Timed, gx: bool, gy: bool)
    requires Setting(c, x, y, t, u) && IsGreeted(x, y, t, s.g.x) && Ordered(s, gx, gy)
    requires Packet(s.g.y) == Some(u.commit) && IsCommit(Some(u.commit))
    ensures CanAdvance(c, s)
  {
    GreetedMovesOn(c, x, y, t, u, s.g.x);
    BecomesResponderState(x, y, u, OnWaitingForHelloAck(c, s.g.x, u.commit));
    PacketAdvancesGreeted(c, s, gx, gy, u.commit, OnWaitingForHelloAck(c, s.g.x, u.commit));
  }

  lemma BecomesResponderState(x: Party, y: Party, u: Script, o: Outcome)
    requires BecomesResponder(x, y, u, o)
    ensures o.next.state == ResponderSendingDhPart1 || o.next.state == ResponderSendingConfirm1
  {
  }

  lemma CommitReachesCommitting(c: Crypto, x: Party, y: Party, t: Script, u: Script, s: Timed, gx: bool, gy: bool)
    requires Setting(c, x, y, t, u) && IsCommitting(x, y, t, s.g.x) && Ordered(s, gx, gy) && gx && GivesWayTo(t, u)
    requires Packet(s.g.y) == Some(u.commit) && IsCommit(Some(u.commit))
    ensures CanAdvance(c, s)
  {
    CommittingMeetsCommit(c, x, y, t, u, s.g.x);
    BecomesResponderState(x, y, u, OnSendingCommit(c, s.g.x, u.commit));
    PacketAdvancesCommitting(c, s, gx, gy, u.commit, OnSendingCommit(c, s.g.x, u.commit));
  }

  lemma DhPart1Reaches(c: Crypto, x: Party, y: Party, t: Script, u: Script, s: Timed, gx: bool, gy: bool)
    requires Setting(c, x, y, t, u) && IsCommitting(x, y, t, s.g.x) && Ordered(s, gx, gy) && !NonDh(x.Ka())
    requires Packet(s.g.y) == Some(t.dhPart1) && IsDhPart1(t.dhPart1)
    ensures CanAdvance(c, s)
  {
    CommittingMeetsDhPart1(c, x, y, t, u, s.g.x);
    PacketAdvancesCommitting(c, s, gx, gy, t.dhPart1, OnSendingCommit(c, s.g.x, t.dhPart1));
  }

  lemma OnConfirm1WhenCommitting(c: Crypto, e: Endpoint, m: Message)
    requires m.Confirm1? && NonDh(e.algos.keyAgreement)
    ensures OnSendingCommit(c, e, m) == OnCommitConfirmed(c, e, m)
  {
  }

  lemma Confirm1ReachesCommitting(c: Crypto, x: Party, y: Party, t: Script, u: Script, s: Timed, gx: bool, gy: bool)
    requires Setting(c, x, y, t, u) && IsCommitting(x, y, t, s.g.x) && Ordered(s, gx, gy) && NonDh(x.Ka())
    requires Packet(s.g.y) == Some(t.confirm1) && t.confirm1.Confirm1?
    ensures CanAdvance(c, s)
  {
    CommittingMeetsConfirm1(c, x, y, t, u, s.g.x);
    OnConfirm1WhenCommitting(c, s.g.x, t.confirm1);
    PacketAdvancesCommitting(c, s, gx, gy, t.confirm1, OnSendingCommit(c, s.g.x, t.confirm1));
  }

  lemma DhPart2Reaches(c: Crypto, x: Party, y: Party, t: Script, u: Script, s: Timed, gx: bool, gy: bool)
    requires Setting(c, x, y, t, u) && IsResponding(x, y, u, s.g.x) && Ordered(s, gx, gy)
    requires Packet(s.g.y) == Some(u.dhPart2) && IsDhPart2(u.dhPart2)
    ensures CanAdvance(c, s)
  {
    RespondingMovesOn(c, x, y, t, u, s.g.x);
    OnAcceptedDhPart2(c, s.g.x, u.dhPart2);
    PacketAdvancesResponding(c, s, gx, gy, u.dhPart2, OnResponderSendingDhPart1(c, s.g.x, u.dhPart2));
  }

  lemma Confirm1Reaches(c: Crypto, x: Party, y: Party, t: Script, u: Script, s: Timed, gx: bool, gy: bool)
    requires Setting(c, x, y, t, u) && IsInitiating(x, y, t, s.g.x) && Ordered(s, gx, gy)
    requires Packet(s.g.y) == Some(t.confirm1) && t.confirm1.Confirm1?
    ensures CanAdvance(c, s)
  {
    InitiatingMovesOn(c, x, y, t, u, s.g.x);
    OnConfirm1WhenInitiating(c, s.g.x, t.confirm1);
    PacketAdvancesInitiating(c, s, gx, gy, t.confirm1, OnInitiatorSendingDhPart2(c, s.g.x, t.confirm1));
  }

  lemma Confirm2Reaches(c: Crypto, x: Party, y: Party, t: Script, u: Script, s: Timed, gx: bool, gy: bool)
    requires Setting(c, x, y, t, u) && IsResponderConfirming(x, y, u, s.g.x) && Ordered(s, gx, gy)
    requires Packet(s.g.y) == Some(u.confirm2) && u.confirm2.Confirm2?
    ensures CanAdvance(c, s)
  {
    ResponderConfirmingMovesOn(c, x, y, t, u, s.g.x);
    PacketAdvancesResponderConfirming(c, s, gx, gy, u.confirm2, OnResponderSendingConfirm1(c, s.g.x, u.confirm2));
  }

  lemma Conf2AckReaches(c: Crypto, x: Party, y: Party, t: Script, u: Script, s: Timed, gx: bool, gy: bool)
    requires Setting(c, x, y, t, u) && IsInitiatorConfirming(x, y, t, s.g.x) && Ordered(s, gx, gy)
    requires Packet(s.g.y) == Some(Conf2Ack)
    ensures CanAdvance(c, s)
  {
    InitiatorConfirmingMovesOn(c, x, y, t, u, s.g.x);
    PacketAdvancesInitiatorConfirming(c, s, gx, gy, Conf2Ack, OnInitiatorSendingConfirm2(c, s.g.x, Conf2Ack));
  }

  // ---------------------------------------------------------------------
  // Two dead ends and no other

  /** x took a HelloACK that overtook every Hello of y, and y, its timer off, will
      send no other. */
  predicate HelloOvertaken(s: Timed) {
    s.g.x.state == WaitingForHello && !s.y.timer.on && !HasHello(s.g.sentY, s.x.taken)
  }

  predicate EitherHelloOvertaken(s: Timed) {
    HelloOvertaken(s) || HelloOvertaken(MirroredTimed(s))
  }

  /** The pairs of stages from which x can be moved on. */
  predicate Movable(dh: bool, x: Stage, y: Stage, givesWay: bool) {
    match x
    case Discovering => y in {Discovering, Greeted}
    case HelloAcked => y == Greeted
    case Greeted => y in {Greeted, Committing}
    case Committing => (y == Committing && givesWay) || (y == Responding && dh) || (y == ResponderConfirming && !dh)
    case Responding => y == Initiating
    case Initiating => y == ResponderConfirming
    case ResponderConfirming => y == InitiatorConfirming
    case InitiatorConfirming => y == ResponderSecure
    case _ => false
  }

  predicate BothSecure(x: Stage, y: Stage) {
    x in {InitiatorSecure, ResponderSecure} && y in {InitiatorSecure, ResponderSecure}
  }

  lemma SomeEndIsMovable(dh: bool, g: Global, cx: bool, gx: bool, cy: bool, gy: bool)
    requires Fits(dh, StageOf(g.x), cx, gx, StageOf(g.y)) && Fits(dh, StageOf(g.y), cy, gy, StageOf(g.x))
    requires BothCommitting(g) ==> gx || gy
    ensures BothSecure(StageOf(g.x), StageOf(g.y))
            || Movable(dh, StageOf(g.x), StageOf(g.y), gx) || Movable(dh, StageOf(g.y), StageOf(g.x), gy)
  {
  }

  /** The same as the lemmas on each combination of stages use it. */
  ghost predicate Located(c: Crypto, x: Party, y: Party, t: Script, u: Script, s: Timed) {
    && AtStage(x, y, t, u, s.g.x) && AtStage(y, x, u, t, s.g.y)
    && Typed(t) && Typed(u) && x.Ka() == y.Ka()
    && OneHello(s.g.sentY, t.responderHello) && u.initiatorHello == SelfHello(c, y.cfg) == t.responderHello
    && Ordered(s, GivesWayTo(t, u), GivesWayTo(u, t))
  }

  lemma InvariantLocates(c: Crypto, x: Party, y: Party, t: Script, u: Script, s: Timed)
    requires Invariant(x, y, t, u, s.g) && Typed(t) && Typed(u) && x.Ka() == y.Ka()
    requires u.initiatorHello == SelfHello(c, y.cfg) == t.responderHello
    requires Ordered(s, GivesWayTo(t, u), GivesWayTo(u, t))
    ensures Located(c, x, y, t, u, s)
  {
    SentHellosAreOne(t, u, !NonDh(x.Ka()), StageOf(s.g.y), s.g.sentY);
  }

  // What the early stages give the lemmas above.
  lemma EarlyFacts(c: Crypto, x: Party, y: Party, t: Script, u: Script, s: Timed)
    requires Located(c, x, y, t, u, s)
    ensures StageOf(s.g.x) == Discovering ==> s.g.x == Start(x.cfg) && s.x.taken == 0
    ensures StageOf(s.g.x) == HelloAcked ==> s.g.x == Start(x.cfg).(state := WaitingForHello)
    ensures StageOf(s.g.x) == Greeted ==> IsGreeted(x, y, t, s.g.x)
    ensures StageOf(s.g.y) == Discovering ==> s.g.y == Start(y.cfg)
    ensures StageOf(s.g.y) == Greeted ==> IsGreeted(y, x, u, s.g.y) && s.g.y.state == WaitingForHelloAck
    ensures s.x.taken <= |s.g.sentY| && Calls(s.g.y, s.y, s.g.sentY)
  {
  }

  lemma EarlyMovableAdvances(c: Crypto, x: Party, y: Party, t: Script, u: Script, s: Timed)
    requires Setting(c, x, y, t, u) && Located(c, x, y, t, u, s) && !HelloOvertaken(s)
    requires Movable(!NonDh(x.Ka()), StageOf(s.g.x), StageOf(s.g.y), GivesWayTo(t, u))
    requires StageOf(s.g.x) in {Discovering, HelloAcked} || (StageOf(s.g.x) == Greeted && StageOf(s.g.y) == Committing)
    ensures CanAdvance(c, s)
  {
    EarlyFacts(c, x, y, t, u, s);
    match StageOf(s.g.x)
    case Discovering => HelloReachesDiscovering(c, x, y, t, u, s);
    case HelloAcked => HelloReachesHelloAcked(c, x, y, t, u, s);
    case Greeted =>
      StagePackets(y, x, u, t, s.g.y);
      CommitReachesGreeted(c, x, y, t, u, s, GivesWayTo(t, u), GivesWayTo(u, t));
  }

  lemma CommittingMovableAdvances(c: Crypto, x: Party, y: Party, t: Script, u: Script, s: Timed)
    requires Setting(c, x, y, t, u) && Located(c, x, y, t, u, s)
    requires Movable(!NonDh(x.Ka()), StageOf(s.g.x), StageOf(s.g.y), GivesWayTo(t, u))
    requires StageOf(s.g.x) == Committing && IsCommitting(x, y, t, s.g.x)
    ensures CanAdvance(c, s)
  {
    StagePackets(y, x, u, t, s.g.y);
    if StageOf(s.g.y) == Committing {
      CommitReachesCommitting(c, x, y, t, u, s, GivesWayTo(t, u), GivesWayTo(u, t));
    } else if StageOf(s.g.y) == Responding {
      DhPart1Reaches(c, x, y, t, u, s, GivesWayTo(t, u), GivesWayTo(u, t));
    } else {
      Confirm1ReachesCommitting(c, x, y, t, u, s, GivesWayTo(t, u), GivesWayTo(u, t));
    }
  }

  lemma LateMovableAdvances(c: Crypto, x: Party, y: Party, t: Script, u: Script, s: Timed)
    requires Setting(c, x, y, t, u) && Located(c, x, y, t, u, s)
    requires Movable(!NonDh(x.Ka()), StageOf(s.g.x), StageOf(s.g.y), GivesWayTo(t, u))
    requires StageOf(s.g.x) !in {Discovering, HelloAcked, Greeted, Committing}
    ensures CanAdvance(c, s)
  {
    StagePackets(y, x, u, t, s.g.y);
    match StageOf(s.g.x)
    case Responding => DhPart2Reaches(c, x, y, t, u, s, GivesWayTo(t, u), GivesWayTo(u, t));
    case Initiating => Confirm1Reaches(c, x, y, t, u, s, GivesWayTo(t, u), GivesWayTo(u, t));
    case ResponderConfirming => Confirm2Reaches(c, x, y, t, u, s, GivesWayTo(t, u), GivesWayTo(u, t));
    case InitiatorConfirming => Conf2AckReaches(c, x, y, t, u, s, GivesWayTo(t, u), GivesWayTo(u, t));
  }

  lemma MovableAdvances(c: Crypto, x: Party, y: Party, t: Script, u: Script, s: Timed)
    requires Setting(c, x, y, t, u) && Located(c, x, y, t, u, s) && !HelloOvertaken(s)
    requires Movable(!NonDh(x.Ka()), StageOf(s.g.x), StageOf(s.g.y), GivesWayTo(t, u))
    requires StageOf(s.g.x) == Greeted ==> StageOf(s.g.y) != Greeted
    ensures CanAdvance(c, s)
  {
    if StageOf(s.g.x) in {Discovering, HelloAcked, Greeted} {
      EarlyMovableAdvances(c, x, y, t, u, s);
    } else if StageOf(s.g.x) == Committing {
      CommittingMovableAdvances(c, x, y, t, u, s);
    } else {
      LateMovableAdvances(c, x, y, t, u, s);
    }
  }

  lemma CanAdvanceMirrored(c: Crypto, s: Timed)
    requires CanAdvance(c, MirroredTimed(s))
    ensures CanAdvance(c, s)
  {
    var m := MirroredTimed(s);
    var run :| Advances(m.g, AfterSteps(c, m, run).g);
    StepsMirrored(c, m, run);
    assert MirroredTimed(m) == s;
    assert Advances(s.g, AfterSteps(c, s, MirroredSteps(run)).g);
  }

  /** Two ends that have each other's Hello: the last HelloACK goes through. */
  lemma GreetedEndsAdvance(c: Crypto, x: Party, y: Party, t: Script, u: Script, s: Timed)
    requires Setting(c, x, y, t, u) && Setting(c, y, x, u, t)
    requires IsGreeted(x, y, t, s.g.x) && IsGreeted(y, x, u, s.g.y)
    requires HasHelloAck(s.g.sentX, s.y.taken) || HasHelloAck(s.g.sentY, s.x.taken)
    requires s.g.x.state == WaitingForHelloAck && s.g.y.state == WaitingForHelloAck
    ensures CanAdvance(c, s)
  {
    if HasHelloAck(s.g.sentY, s.x.taken) {
      HelloAckReaches(c, x, y, t, u, s);
    } else {
      HelloAckReaches(c, y, x, u, t, MirroredTimed(s));
      CanAdvanceMirrored(c, s);
    }
  }

  /** The two ends are not stuck sending Commits of one value. */
  predicate Undecided(t: Script, u: Script, g: Global) {
    BothCommitting(g) && !GivesWayTo(t, u) && !GivesWayTo(u, t)
  }

  lemma EndsAdvance(c: Crypto, x: Party, y: Party, t: Script, u: Script, s: Timed)
    requires Setting(c, x, y, t, u) && Setting(c, y, x, u, t)
    requires Located(c, x, y, t, u, s) && Located(c, y, x, u, t, MirroredTimed(s)) && !EitherHelloOvertaken(s)
    requires Movable(!NonDh(x.Ka()), StageOf(s.g.x), StageOf(s.g.y), GivesWayTo(t, u))
             || Movable(!NonDh(x.Ka()), StageOf(s.g.y), StageOf(s.g.x), GivesWayTo(u, t))
    ensures CanAdvance(c, s)
  {
    if StageOf(s.g.x) == Greeted && StageOf(s.g.y) == Greeted {
      EarlyFacts(c, x, y, t, u, s);
      BothGreeted(s, GivesWayTo(t, u), GivesWayTo(u, t));
      GreetedEndsAdvance(c, x, y, t, u, s);
    } else if Movable(!NonDh(x.Ka()), StageOf(s.g.x), StageOf(s.g.y), GivesWayTo(t, u)) {
      MovableAdvances(c, x, y, t, u, s);
    } else {
      MovableAdvances(c, y, x, u, t, MirroredTimed(s));
      CanAdvanceMirrored(c, s);
    }
  }

  lemma BothGreeted(s: Timed, gx: bool, gy: bool)
    requires Ordered(s, gx, gy) && StageOf(s.g.x) == Greeted && StageOf(s.g.y) == Greeted
    ensures s.g.x.state == WaitingForHelloAck && s.g.y.state == WaitingForHelloAck
    ensures HasHelloAck(s.g.sentX, s.y.taken) || HasHelloAck(s.g.sentY, s.x.taken)
  {
  }

  // ---------------------------------------------------------------------
  // Order is kept

  /** A state of two honest ends whose packets are in order. */
  ghost predicate Sane(x: Party, y: Party, t: Script, u: Script, s: Timed) {
    Invariant(x, y, t, u, s.g) && Ordered(s, GivesWayTo(t, u), GivesWayTo(u, t))
  }

  lemma StageIsInRole(x: Party, y: Party, t: Script, u: Script, e: Endpoint)
    requires AtStage(x, y, t, u, e)
    ensures InRole(e)
    ensures e.state == SendingCommit ==> IsCommitting(x, y, t, e)
  {
  }

  // A losing Commit is given up on the other.
  lemma LosingCommitIsLeft(c: Crypto, x: Party, y: Party, t: Script, u: Script, e: Endpoint)
    requires Setting(c, x, y, t, u) && IsCommitting(x, y, t, e) && e.state == SendingCommit && GivesWayTo(t, u)
    ensures Receive(c, e, u.commit).next.state != SendingCommit
  {
    CommittingMeetsCommit(c, x, y, t, u, e);
    BecomesResponderState(x, y, u, OnSendingCommit(c, e, u.commit));
    Dispatch(c, e, u.commit);
  }

  lemma SentCommitIsThePeers(t: Script, u: Script, dh: bool, stage: Stage, sent: seq<Message>, k: nat)
    requires AllMaySend(u, t, dh, stage, sent) && Typed(t) && Typed(u) && u.initiatorHello == t.responderHello && k < |sent|
    ensures IsCommit(Some(sent[k])) ==> sent[k] == u.commit
  {
    MessagesTell(t, u, dh, stage, sent[k]);
  }

  lemma IgnoredCommitsLose(c: Crypto, x: Party, y: Party, t: Script, u: Script, e: Endpoint, m: Message)
    requires Setting(c, x, y, t, u) && AtStage(x, y, t, u, e) && (IsCommit(Some(m)) ==> m == u.commit)
    ensures GivesWayTo(t, u) && Ignored(e, m) ==> Receive(c, e, m).next.state != e.state
  {
    if GivesWayTo(t, u) && Ignored(e, m) {
      StageIsInRole(x, y, t, u, e);
      LosingCommitIsLeft(c, x, y, t, u, e);
    }
  }

  // What is given to x keeps the order, outside of the setting.
  lemma GivenKeepsOrder(c: Crypto, s: Timed, k: nat, gx: bool, gy: bool)
    requires Ordered(s, gx, gy) && s.x.taken <= k < |s.g.sentY| && InRole(s.g.x)
    requires var o := Receive(c, s.g.x, s.g.sentY[k]);
             && o.ret != Fault && (o.ret != Done ==> o.next == s.g.x && o.sent == [])
             && (gx && Ignored(s.g.x, s.g.sentY[k]) ==> o.ret == Done && o.next.state != s.g.x.state)
    ensures Ordered(GiveX(c, s, k), gx, gy)
  {
    if Receive(c, s.g.x, s.g.sentY[k]).ret == Done {
      TakenKeepsOrder(c, s, k, gx, gy);
    } else {
      RefusedKeepsOrder(s, k, Receive(c, s.g.x, s.g.sentY[k]), gx, gy);
    }
  }

  lemma GivingKeepsOrder(c: Crypto, x: Party, y: Party, t: Script, u: Script, s: Timed, k: nat)
    requires Setting(c, x, y, t, u) && Invariant(x, y, t, u, s.g) && Ordered(s, GivesWayTo(t, u), GivesWayTo(u, t))
    requires s.x.taken <= k < |s.g.sentY|
    ensures Sane(x, y, t, u, GiveX(c, s, k))
  {
    SettingGives(c, x, y, t, u);
    ReceivingKeepsInvariant(c, x, y, t, u, s.g, s.g.sentY[k]);
    StageIsInRole(x, y, t, u, s.g.x);
    SentCommitIsThePeers(t, u, !NonDh(x.Ka()), StageOf(s.g.y), s.g.sentY, k);
    IgnoredCommitsLose(c, x, y, t, u, s.g.x, s.g.sentY[k]);
    GivenKeepsOrder(c, s, k, GivesWayTo(t, u), GivesWayTo(u, t));
  }

  lemma TickIsDone(c: Crypto, e: Endpoint)
    requires Tick(c, e).ret != Fault
    ensures Tick(c, e).ret == Done
  {
  }

  lemma IteratingKeepsOrder(c: Crypto, x: Party, y: Party, t: Script, u: Script, s: Timed, now: nat)
    requires Setting(c, x, y, t, u) && Invariant(x, y, t, u, s.g) && Ordered(s, GivesWayTo(t, u), GivesWayTo(u, t))
    ensures var h := Timed(UpdateX(s.g, Tick(c, s.g.x)), Iterated(s.g.x.state, s.x, now), s.y);
            Sane(x, y, t, u, h)
  {
    TickingKeepsInvariant(c, x, y, t, u, s.g);
    TickIsDone(c, s.g.x);
    TickRepeats(c, s.g.x);
    RepeatingKeepsOrder(s, Tick(c, s.g.x), now, GivesWayTo(t, u), GivesWayTo(u, t));
  }

  lemma PacketStepIsSane(c: Crypto, x: Party, y: Party, t: Script, u: Script, s: Timed, k: nat)
    requires s.x.taken <= k < |s.g.sentY| && Sane(x, y, t, u, GiveX(c, s, k))
    ensures Sane(x, y, t, u, Proceed(c, s, PacketToX(k)).0)
  {
  }

  lemma NoPacketStepIsSane(c: Crypto, x: Party, y: Party, t: Script, u: Script, s: Timed, k: nat)
    requires !(s.x.taken <= k < |s.g.sentY|) && Sane(x, y, t, u, s)
    ensures Sane(x, y, t, u, Proceed(c, s, PacketToX(k)).0)
  {
  }

  // The clock alone moves.
  lemma ClockKeepsOrder(s: Timed, now: nat, gx: bool, gy: bool)
    requires Ordered(s, gx, gy)
    ensures Ordered(s.(x := s.x.(clock := now)), gx, gy)
  {
  }

  lemma IterationDoes(c: Crypto, s: Timed, now: nat)
    ensures Proceed(c, s, IterateX(now)).0 ==
            if now < s.x.clock then s
            else if Timer.Fires(s.x.timer, now) then Timed(UpdateX(s.g, Tick(c, s.g.x)), Iterated(s.g.x.state, s.x, now), s.y)
            else s.(x := s.x.(clock := now))
  {
  }

  lemma IterationIsSane(c: Crypto, x: Party, y: Party, t: Script, u: Script, s: Timed, now: nat)
    requires Sane(x, y, t, u, s)
    requires Sane(x, y, t, u, Timed(UpdateX(s.g, Tick(c, s.g.x)), Iterated(s.g.x.state, s.x, now), s.y))
    ensures Sane(x, y, t, u, Proceed(c, s, IterateX(now)).0)
  {
    IterationDoes(c, s, now);
    if s.x.clock <= now && !Timer.Fires(s.x.timer, now) {
      ClockKeepsOrder(s, now, GivesWayTo(t, u), GivesWayTo(u, t));
    }
  }

  lemma StepOfXKeepsOrder(c: Crypto, x: Party, y: Party, t: Script, u: Script, s: Timed, step: Step)
    requires Setting(c, x, y, t, u) && Sane(x, y, t, u, s) && (step.PacketToX? || step.IterateX?)
    ensures Sane(x, y, t, u, Proceed(c, s, step).0)
  {
    match step
    case PacketToX(k) =>
      if s.x.taken <= k < |s.g.sentY| {
        GivingKeepsOrder(c, x, y, t, u, s, k);
        PacketStepIsSane(c, x, y, t, u, s, k);
      } else {
        NoPacketStepIsSane(c, x, y, t, u, s, k);
      }
    case IterateX(now) =>
      IteratingKeepsOrder(c, x, y, t, u, s, now);
      IterationIsSane(c, x, y, t, u, s, now);
  }

  lemma SaneMirrored(x: Party, y: Party, t: Script, u: Script, s: Timed)
    requires x.Ka() == y.Ka()
    ensures Sane(x, y, t, u, s) <==> Sane(y, x, u, t, MirroredTimed(s))
  {
    InvariantMirrored(x, y, t, u, s.g);
    OrderedMirrored(s, GivesWayTo(t, u), GivesWayTo(u, t));
  }

  /** Any step keeps the two ends in order: what an end still waits for has not been
      overtaken by what it took. */
  lemma StepKeepsOrder(c: Crypto, x: Party, y: Party, t: Script, u: Script, s: Timed, step: Step)
    requires Setting(c, x, y, t, u) && Sane(x, y, t, u, s)
    ensures Sane(x, y, t, u, Proceed(c, s, step).0)
  {
    if step.PacketToX? || step.IterateX? {
      StepOfXKeepsOrder(c, x, y, t, u, s, step);
    } else {
      SettingMirrored(c, x, y, t, u);
      SettingGives(c, x, y, t, u);
      SaneMirrored(x, y, t, u, s);
      StepOfXKeepsOrder(c, y, x, u, t, MirroredTimed(s), MirroredStep(step));
      StepMirrored(c, s, step);
      SaneMirrored(x, y, t, u, Proceed(c, s, step).0);
    }
  }

  lemma {:induction false} StepsKeepOrder(c: Crypto, x: Party, y: Party, t: Script, u: Script, s: Timed, run: seq<Step>)
    requires Setting(c, x, y, t, u) && Sane(x, y, t, u, s)
    ensures Sane(x, y, t, u, AfterSteps(c, s, run))
  {
    if run != [] {
      var front := run[..|run| - 1];
      StepsKeepOrder(c, x, y, t, u, s, front);
      StepKeepsOrder(c, x, y, t, u, AfterSteps(c, s, front), run[|run| - 1]);
    }
  }

  lemma BeginningIsSane(x: Party, y: Party, t: Script, u: Script)
    ensures Sane(x, y, t, u, TimedBeginning(x.cfg, y.cfg))
  {
    BeginningIsInvariant(x, y, t, u);
  }

  // ---------------------------------------------------------------------
  // No other dead end

  function TotalRank(g: Global): (n: nat)
    ensures n <= 10
  {
    Rank(StageOf(g.x)) + Rank(StageOf(g.y))
  }

  lemma AdvancesRaisesRank(g: Global, h: Global)
    requires Advances(g, h)
    ensures TotalRank(g) < TotalRank(h)
  {
  }

  lemma AdvancingRun(c: Crypto, t: Script, u: Script, s: Timed) returns (run: seq<Step>, h: Timed)
    requires CanAdvance(c, s)
    ensures h == AfterSteps(c, s, run) && TotalRank(s.g) < TotalRank(h.g)
    ensures !Undecided(t, u, h.g) && !EitherHelloOvertaken(h)
  {
    run :| Advances(s.g, AfterSteps(c, s, run).g);
    h := AfterSteps(c, s, run);
    AdvancesRaisesRank(s.g, h.g);
  }

  lemma SaneEndsAdvance(c: Crypto, x: Party, y: Party, t: Script, u: Script, s: Timed)
    requires Setting(c, x, y, t, u) && Sane(x, y, t, u, s) && !Undecided(t, u, s.g) && !EitherHelloOvertaken(s)
    requires !BothSecure(StageOf(s.g.x), StageOf(s.g.y))
    ensures CanAdvance(c, s)
  {
    SettingGives(c, x, y, t, u);
    SettingMirrored(c, x, y, t, u);
    SettingGives(c, y, x, u, t);
    SaneMirrored(x, y, t, u, s);
    InvariantLocates(c, x, y, t, u, s);
    InvariantLocates(c, y, x, u, t, MirroredTimed(s));
    SomeEndIsMovable(!NonDh(x.Ka()), s.g, t.commit in s.g.sentX, GivesWayTo(t, u), u.commit in s.g.sentY, GivesWayTo(u, t));
    EndsAdvance(c, x, y, t, u, s);
  }

  /** From any state in order some steps lead both ends to security, unless both are
      already sending Commits of one value, or the Hello one of them waits for has
      been overtaken for good. */
  lemma {:induction false} SecurityIsReachable(c: Crypto, x: Party, y: Party, t: Script, u: Script, s: Timed) returns (run: seq<Step>)
    requires Setting(c, x, y, t, u) && Sane(x, y, t, u, s) && !Undecided(t, u, s.g) && !EitherHelloOvertaken(s)
    ensures BothSecure(StageOf(AfterSteps(c, s, run).g.x), StageOf(AfterSteps(c, s, run).g.y))
    decreases 10 - TotalRank(s.g)
  {
    if BothSecure(StageOf(s.g.x), StageOf(s.g.y)) {
      run := [];
    } else {
      SaneEndsAdvance(c, x, y, t, u, s);
      var first, h := AdvancingRun(c, t, u, s);
      StepsKeepOrder(c, x, y, t, u, s, first);
      var rest := SecurityIsReachable(c, x, y, t, u, h);
      StepsAdd(c, s, first, rest);
      run := first + rest;
    }
  }

  // ---------------------------------------------------------------------
  // The dead ends last

  lemma {:induction false} RunKeepsInvariant(c: Crypto, x: Party, y: Party, t: Script, u: Script, g: Global, run: seq<Event>)
    requires Setting(c, x, y, t, u) && Invariant(x, y, t, u, g)
    ensures Invariant(x, y, t, u, After(c, g, run))
  {
    if run != [] {
      var front := run[..|run| - 1];
      RunKeepsInvariant(c, x, y, t, u, g, front);
      EventKeepsInvariant(c, x, y, t, u, After(c, g, front), run[|run| - 1]);
    }
  }

  /** Two Commits of one value, both sent: neither end will ever leave the state. */
  lemma EqualCommitsAreStuck(x: Party, y: Party, t: Script, u: Script, g: Global)
    requires x.Ka() == y.Ka() && Invariant(x, y, t, u, g) && t.commit in g.sentX && u.commit in g.sentY
    requires !GivesWayTo(t, u) && !GivesWayTo(u, t)
    ensures BothCommitting(g)
  {
  }

  lemma {:induction false} NothingSentIsForgotten(c: Crypto, g: Global, run: seq<Event>, m: Message)
    ensures m in g.sentX ==> m in After(c, g, run).sentX
    ensures m in g.sentY ==> m in After(c, g, run).sentY
  {
    if run != [] {
      NothingSentIsForgotten(c, g, run[..|run| - 1], m);
    }
  }

  lemma UndecidedIsForever(c: Crypto, x: Party, y: Party, t: Script, u: Script, g: Global, run: seq<Event>)
    requires Setting(c, x, y, t, u) && Invariant(x, y, t, u, g) && Undecided(t, u, g)
    ensures BothCommitting(After(c, g, run))
  {
    SettingGives(c, x, y, t, u);
    RunKeepsInvariant(c, x, y, t, u, g, run);
    CommittedWasSent(x, y, t, u, g);
    NothingSentIsForgotten(c, g, run, t.commit);
    NothingSentIsForgotten(c, g, run, u.commit);
    EqualCommitsAreStuck(x, y, t, u, After(c, g, run));
  }

  lemma CommittedWasSent(x: Party, y: Party, t: Script, u: Script, g: Global)
    requires x.Ka() == y.Ka() && Invariant(x, y, t, u, g) && BothCommitting(g)
    ensures t.commit in g.sentX && u.commit in g.sentY
  {
  }

  lemma OvertakenStage(x: Party, y: Party, t: Script, u: Script, g: Global)
    requires x.Ka() == y.Ka() && Invariant(x, y, t, u, g) && g.x.state == WaitingForHello
    ensures g.x == Start(x.cfg).(state := WaitingForHello) && IsGreeted(y, x, u, g.y) && g.y.state == WaitingForHelloAck
    ensures forall m :: m in g.sentX ==> m == t.initiatorHello
  {
  }

  lemma WaitingForHelloIgnores(c: Crypto, e: Endpoint, m: Message)
    requires e.state == WaitingForHello
    ensures !IsHello(Some(m)) ==> var o := Receive(c, e, m); o.next == e && o.sent == [] && o.ret != Done
    ensures Tick(c, e).next == e && Tick(c, e).sent == []
  {
  }

  lemma AcknowledgingKeepsOvertaken(s: Timed, k: nat, o: Outcome)
    requires HelloOvertaken(s) && k < |s.g.sentX| && o == Outcome(s.g.y, [HelloAck], Done)
    ensures HelloOvertaken(Timed(UpdateY(s.g, o), s.x, Took(s.g.y, s.y, k, s.g.sentX[k], o)))
  {
    forall i | s.x.taken <= i < |s.g.sentY + [HelloAck]| ensures !IsHello(Some((s.g.sentY + [HelloAck])[i])) {
      if i < |s.g.sentY| {
        assert (s.g.sentY + [HelloAck])[i] == s.g.sentY[i];
      }
    }
  }

  lemma OvertakenStep(c: Crypto, x: Party, y: Party, t: Script, u: Script, s: Timed, step: Step)
    requires HelloOvertaken(s) && IsGreeted(y, x, u, s.g.y) && IsHello(Some(u.responderHello))
    requires forall m :: m in s.g.sentX ==> m == u.responderHello
    ensures HelloOvertaken(Proceed(c, s, step).0)
  {
    match step
    case PacketToX(k) =>
      if s.x.taken <= k < |s.g.sentY| {
        WaitingForHelloIgnores(c, s.g.x, s.g.sentY[k]);
        assert s.g.sentX + [] == s.g.sentX;
      }
    case PacketToY(k) =>
      if s.y.taken <= k < |s.g.sentX| {
        assert s.g.sentX[k] in s.g.sentX;
        GreetedAnswers(c, y, x, u, s.g.y);
        Dispatch(c, s.g.y, u.responderHello);
        AcknowledgingKeepsOvertaken(s, k, Receive(c, s.g.y, u.responderHello));
      }
    case IterateX(now) => WaitingForHelloIgnores(c, s.g.x, HelloAck);
    case IterateY(now) =>
  }

  lemma GreetedAnswers(c: Crypto, x: Party, y: Party, t: Script, e: Endpoint)
    requires IsGreeted(x, y, t, e) && IsHello(Some(t.responderHello))
    ensures OnWaitingForHelloAck(c, e, t.responderHello) == Outcome(e, [HelloAck], Done)
  {
  }

  /** A Hello overtaken for good is waited for forever: nothing either end can still
      receive or send changes that. */
  lemma {:induction false} OvertakenIsForever(c: Crypto, x: Party, y: Party, t: Script, u: Script, s: Timed, run: seq<Step>)
    requires Setting(c, x, y, t, u) && Sane(x, y, t, u, s) && HelloOvertaken(s)
    ensures HelloOvertaken(AfterSteps(c, s, run))
  {
    if run != [] {
      var front := run[..|run| - 1];
      OvertakenIsForever(c, x, y, t, u, s, front);
      StepsKeepOrder(c, x, y, t, u, s, front);
      SettingGives(c, x, y, t, u);
      OvertakenStage(x, y, t, u, AfterSteps(c, s, front).g);
      OvertakenStep(c, x, y, t, u, AfterSteps(c, s, front), run[|run| - 1]);
    }
  }
}
