/** What sequence numbers and timers leave of the network: the packet an end waits
    for has not been overtaken by one it took. */
module InOrder {
  import opened Octets
  import opened Negotiation
  import opened Agreement
  import opened RetainedSecrets
  import opened Messages
  import opened Protocol
  import opened TwoEnds
  import opened TimedEnds
  import Timer

  // ---------------------------------------------------------------------
  // One message, whoever sent it

  predicate IsDhPart1(m: Message) {
    m.Signed? && m.body.DhPart1Body?
  }

  predicate IsDhPart2(m: Message) {
    m.Signed? && m.body.DhPart2Body?
  }

  /** The messages on which a state is left. */
  predicate Awaits(state: State, m: Message) {
    match state
    case DiscoveryInit => IsHello(Some(m)) || m.HelloAck?
    case WaitingForHello => IsHello(Some(m))
    case WaitingForHelloAck => m.HelloAck? || IsCommit(Some(m))
    case SendingCommit => IsCommit(Some(m)) || IsDhPart1(m) || m.Confirm1?
    case ResponderSendingDhPart1 => IsDhPart2(m)
    case InitiatorSendingDhPart2 => m.Confirm1?
    case ResponderSendingConfirm1 => m.Confirm2?
    case InitiatorSendingConfirm2 => m.Conf2Ack?
    case Secure => false
  }

  /** The packet a state sends on entry and repeats. */
  function Packet(e: Endpoint): Option<Message> {
    match e.state
    case SendingCommit => e.selfCommit
    case ResponderSendingDhPart1 => e.selfDhPart
    case InitiatorSendingDhPart2 => e.selfDhPart
    case ResponderSendingConfirm1 => e.selfConfirm
    case InitiatorSendingConfirm2 => e.selfConfirm
    case Secure => if e.role == Responder then Some(Conf2Ack) else None
    case _ => None
  }

  /** The last message sent is the state's packet. */
  predicate SaysLast(e: Endpoint, o: Outcome) {
    Packet(o.next).Some? ==>
      if o.sent == [] then Packet(e) == Packet(o.next) else o.sent[|o.sent| - 1] == Packet(o.next).value
  }

  /** A Commit received while committing may be ignored. */
  predicate Ignored(e: Endpoint, m: Message) {
    e.state == SendingCommit && IsCommit(Some(m))
  }

  /** A message that is taken: the state is left on what it waits for and on nothing
      else, the next state does not wait for the same message, and what is sent
      ends with the packet of the state. */
  predicate Steps(e: Endpoint, m: Message, o: Outcome) {
    && (!Awaits(e.state, m) ==> o.next == e)
    && (Awaits(e.state, m) && o.next.state == e.state ==> Ignored(e, m))
    && (o.next.state != e.state ==> !Awaits(o.next.state, m) && o.next.state != DiscoveryInit)
    && (o.next.state == e.state ==> e.state != DiscoveryInit)
    && (m.Conf2Ack? ==> o.next.state == Secure)
    && SaysLast(e, o)
    && (o.next.state == WaitingForHelloAck ==> o.sent == [HelloAck])
  }

  /** What the lemmas ask of an end: it has no Commit before it sends one, and it
      confirms in its role. */
  predicate InRole(e: Endpoint) {
    && (e.state == WaitingForHello || e.state == WaitingForHelloAck ==> e.selfCommit == None)
    && (e.state == ResponderSendingConfirm1 ==> e.role == Responder)
    && (e.state == InitiatorSendingConfirm2 ==> e.role == Initiator)
  }

  /** The answer to a Hello, in the state it finds. */
  predicate Greets(e: Endpoint, o: Outcome) {
    o.ret == Done ==> o.next.state == e.state && o.sent == [HelloAck] && o.next.selfCommit == e.selfCommit
  }

  lemma PreparingGreets(c: Crypto, e: Endpoint)
    ensures Greets(e, PrepareDhPart2(c, e))
  {
  }

  lemma GreetingGreets(c: Crypto, e: Endpoint, m: Message, lists: AlgoLists)
    requires IsHello(Some(m))
    ensures Greets(e, GreetPeer(c, e, m, lists))
  {
    PreparingGreets(c, WithLoadedSecrets(c, e.(peerZid := m.body.hello.zid, peerHello := Some(m)), m.body.hello.h3));
  }

  lemma AnsweringGreets(c: Crypto, e: Endpoint, m: Message)
    requires IsHello(Some(m))
    ensures Greets(e, ResponseToHello(c, e, m))
  {
    GreetingGreets(c, e.(algos := Agree(e.cfg.lists, Received(m.body.hello.lists), e.algos).1), m, Received(m.body.hello.lists));
  }

  lemma CommitIsSaid(c: Crypto, e: Endpoint)
    requires e.state == SendingCommit && e.selfCommit == None
    ensures var o := EnterSendingCommit(c, e);
            o.ret == Done ==> o.next.state == SendingCommit && SaysLast(e, o)
  {
  }

  lemma DiscoverySteps(c: Crypto, e: Endpoint, m: Message)
    requires e.state == DiscoveryInit && OnDiscoveryInit(c, e, m).ret == Done
    ensures Steps(e, m, OnDiscoveryInit(c, e, m))
  {
    if IsHello(Some(m)) {
      AnsweringGreets(c, e, m);
    }
  }

  lemma HelloAckedSteps(c: Crypto, e: Endpoint, m: Message)
    requires e.state == WaitingForHello && e.selfCommit == None && OnWaitingForHello(c, e, m).ret == Done
    ensures Steps(e, m, OnWaitingForHello(c, e, m))
  {
    if IsHello(Some(m)) {
      AnsweringGreets(c, e, m);
      CommitIsSaid(c, ResponseToHello(c, e, m).next.(state := SendingCommit));
    }
  }

  /** A state entered with its packet. */
  predicate Says(o: Outcome, state: State) {
    o.ret == Done ==> o.next.state == state && Packet(o.next).Some? && o.sent != [] && o.sent[|o.sent| - 1] == Packet(o.next).value
  }

  predicate SaysAsResponder(o: Outcome) {
    Says(o, ResponderSendingDhPart1) || Says(o, ResponderSendingConfirm1)
  }

  lemma Confirm1IsSaid(c: Crypto, e: Endpoint)
    requires e.state == ResponderSendingConfirm1
    ensures Says(SendConfirm1(c, e), ResponderSendingConfirm1)
  {
  }

  lemma ResponderConfirms(c: Crypto, e: Endpoint)
    requires e.state == ResponderSendingConfirm1
    ensures Says(EnterResponderSendingConfirm1(c, e), ResponderSendingConfirm1)
  {
    Confirm1IsSaid(c, e);
    if e.algos.keyAgreement == KEYAGREEMENT_MULT && e.zrtpSess.Some? && ComputeS0Mult(c, e).Some? {
      Confirm1IsSaid(c, ComputeS0Mult(c, e).value);
    }
  }

  lemma EnteringResponderSays(c: Crypto, e: Endpoint)
    ensures SaysAsResponder(EnterResponderState(c, e))
  {
    ResponderConfirms(c, e.(state := ResponderSendingConfirm1));
  }

  lemma ResponderSays(c: Crypto, e: Endpoint, m: Message)
    requires IsCommit(Some(m))
    ensures SaysAsResponder(TurnIntoResponder(c, e, m))
  {
    var commit := m.body.commit;
    var responder := e.(peerCommit := Some(m), role := Responder, algos := commit.algos);
    var swapped := responder.(ids := SwapAux(e.ids));
    EnteringResponderSays(c, responder);
    EnteringResponderSays(c, WithKemAnswer(c, swapped, commit));
    var length := DhPartValueLength(c, commit.algos.keyAgreement, true);
    if IsDhPart(e.selfDhPart) && length <= |e.selfDhPart.value.body.dhPart.pv| {
      EnteringResponderSays(c, WithDhAnswer(c, swapped, e.selfDhPart.value.body.dhPart.pv[..length]));
    }
  }

  lemma GreetedSteps(c: Crypto, e: Endpoint, m: Message)
    requires e.state == WaitingForHelloAck && e.selfCommit == None && OnWaitingForHelloAck(c, e, m).ret == Done
    ensures Steps(e, m, OnWaitingForHelloAck(c, e, m))
  {
    if m.HelloAck? {
      CommitIsSaid(c, e.(state := SendingCommit));
    } else if IsCommit(Some(m)) {
      ResponderSays(c, e, m);
    }
  }

  lemma KeyedInitiatorSays(e: Endpoint, keyed: Option<Endpoint>)
    ensures Says(InitiatorKeyed(e, keyed), InitiatorSendingDhPart2)
  {
  }

  lemma InitiatorSays(c: Crypto, e: Endpoint, m: Message)
    requires IsDhPart(Some(m))
    ensures Says(OnDhPart1(c, e, m), InitiatorSendingDhPart2)
  {
    var dhPart := m.body.dhPart;
    var retained := InitiatorMatch(e.secrets.retained, e.cacheMismatch, e.ids.responder, SecretIds(dhPart.rs1Id, dhPart.rs2Id));
    var matched := WithMatched(e, retained, e.ids.responderAux, e.ids.responderPbx, dhPart);
    KeyedInitiatorSays(matched, ComputeS0Dh(c, matched.(peerDhPart := Some(m))));
  }

  lemma ConfirmingSays(c: Crypto, e: Endpoint, m: Message)
    requires m.Confirm1?
    ensures Says(OnConfirm1(c, e, m), InitiatorSendingConfirm2)
  {
  }

  lemma CommitConfirmedSays(c: Crypto, e: Endpoint, m: Message)
    requires m.Confirm1?
    ensures Says(OnCommitConfirmed(c, e, m), InitiatorSendingConfirm2)
  {
    var ready := if e.algos.keyAgreement == KEYAGREEMENT_MULT then ComputeS0Mult(c, e) else Some(e);
    if ready.Some? {
      ConfirmingSays(c, ready.value, m);
    }
  }

  lemma ContentionSteps(c: Crypto, e: Endpoint, m: Message)
    requires e.state == SendingCommit && IsCommit(Some(m)) && Contention(c, e, m).ret == Done
    ensures Steps(e, m, Contention(c, e, m))
  {
    ResponderSays(c, e.(role := Responder, selfCommit := None), m);
  }

  // What OnSendingCommit takes, by the kind of message.
  lemma CommittingTakes(c: Crypto, e: Endpoint, m: Message)
    requires OnSendingCommit(c, e, m).ret == Done
    ensures var o := OnSendingCommit(c, e, m);
            || (m.Confirm1? && o == OnCommitConfirmed(c, e, m))
            || (IsDhPart1(m) && o == OnDhPart1(c, e, m))
            || (IsCommit(Some(m)) && o == Contention(c, e, m))
  {
  }

  lemma EnteringSteps(e: Endpoint, m: Message, o: Outcome, state: State)
    requires e.state == SendingCommit && o.ret == Done && Says(o, state) && (m.Confirm1? || IsDhPart1(m))
    requires state == InitiatorSendingConfirm2 || (state == InitiatorSendingDhPart2 && IsDhPart1(m))
    ensures Steps(e, m, o)
  {
  }

  lemma CommittingSteps(c: Crypto, e: Endpoint, m: Message)
    requires e.state == SendingCommit && OnSendingCommit(c, e, m).ret == Done
    ensures Steps(e, m, OnSendingCommit(c, e, m))
  {
    CommittingTakes(c, e, m);
    if m.Confirm1? {
      CommitConfirmedSays(c, e, m);
      EnteringSteps(e, m, OnSendingCommit(c, e, m), InitiatorSendingConfirm2);
    } else if IsDhPart1(m) {
      InitiatorSays(c, e, m);
      EnteringSteps(e, m, OnSendingCommit(c, e, m), InitiatorSendingDhPart2);
    } else {
      ContentionSteps(c, e, m);
    }
  }

  lemma KeyedResponderSays(c: Crypto, e: Endpoint, keyed: Option<Endpoint>)
    ensures Says(ResponderKeyed(c, e, keyed), ResponderSendingConfirm1)
  {
    if keyed.Some? {
      ResponderConfirms(c, keyed.value.(state := ResponderSendingConfirm1));
    }
  }

  lemma ConfirmSays(c: Crypto, e: Endpoint, m: Message)
    requires IsDhPart(Some(m))
    ensures Says(OnDhPart2(c, e, m), ResponderSendingConfirm1)
  {
    var dhPart := m.body.dhPart;
    var retained := ResponderMatch(e.secrets.retained, e.cacheMismatch, e.ids.initiator, SecretIds(dhPart.rs1Id, dhPart.rs2Id));
    var matched := WithMatched(e, retained, e.ids.initiatorAux, e.ids.initiatorPbx, dhPart);
    KeyedResponderSays(c, matched, ComputeS0Dh(c, matched.(peerDhPart := Some(m))));
  }

  lemma RespondingSteps(c: Crypto, e: Endpoint, m: Message)
    requires e.state == ResponderSendingDhPart1 && OnResponderSendingDhPart1(c, e, m).ret == Done
    ensures Steps(e, m, OnResponderSendingDhPart1(c, e, m))
  {
    if IsDhPart2(m) {
      ConfirmSays(c, e, m);
    }
  }

  lemma InitiatingSteps(c: Crypto, e: Endpoint, m: Message)
    requires e.state == InitiatorSendingDhPart2 && OnInitiatorSendingDhPart2(c, e, m).ret == Done
    ensures Steps(e, m, OnInitiatorSendingDhPart2(c, e, m))
  {
    if m.Confirm1? {
      ConfirmingSays(c, e, m);
    }
  }

  lemma SecureResponderSays(c: Crypto, e: Endpoint)
    requires e.role == Responder
    ensures Says(SecureResponder(c, e), Secure)
  {
  }

  lemma Confirm2Says(c: Crypto, e: Endpoint, m: Message)
    requires m.Confirm2? && e.keys.Some? && e.role == Responder
    ensures Says(OnConfirm2(c, e, m), Secure)
  {
    SecureResponderSays(c, e.(peerH0 := OpenedConfirm(c, e, m.confirm).h0, peerConfirm := Some(m),
                              peerPvs := if e.algos.keyAgreement != KEYAGREEMENT_MULT then OpenedConfirm(c, e, m.confirm).v else e.peerPvs));
  }

  lemma ResponderConfirmingSteps(c: Crypto, e: Endpoint, m: Message)
    requires e.state == ResponderSendingConfirm1 && e.role == Responder && OnResponderSendingConfirm1(c, e, m).ret == Done
    ensures Steps(e, m, OnResponderSendingConfirm1(c, e, m))
  {
    if m.Confirm2? && e.keys.Some? {
      Confirm2Says(c, e, m);
    }
  }

  lemma InitiatorConfirmingSteps(c: Crypto, e: Endpoint, m: Message)
    requires e.state == InitiatorSendingConfirm2 && e.role == Initiator && OnInitiatorSendingConfirm2(c, e, m).ret == Done
    ensures Steps(e, m, OnInitiatorSendingConfirm2(c, e, m))
  {
  }

  lemma SecureSteps(c: Crypto, e: Endpoint, m: Message)
    requires e.state == Secure && OnSecure(c, e, m).ret == Done
    ensures Steps(e, m, OnSecure(c, e, m))
  {
  }

  /** Every message that a state function takes, from whomever it comes. */
  lemma TakenMessageSteps(c: Crypto, e: Endpoint, m: Message)
    requires InRole(e) && Receive(c, e, m).ret == Done
    ensures Steps(e, m, Receive(c, e, m))
  {
    match e.state
    case DiscoveryInit => DiscoverySteps(c, e, m);
    case WaitingForHello => HelloAckedSteps(c, e, m);
    case WaitingForHelloAck => GreetedSteps(c, e, m);
    case SendingCommit => CommittingSteps(c, e, m);
    case ResponderSendingDhPart1 => RespondingSteps(c, e, m);
    case InitiatorSendingDhPart2 => InitiatingSteps(c, e, m);
    case ResponderSendingConfirm1 => ResponderConfirmingSteps(c, e, m);
    case InitiatorSendingConfirm2 => InitiatorConfirmingSteps(c, e, m);
    case Secure => SecureSteps(c, e, m);
  }

  // ---------------------------------------------------------------------
  // Two ends in order

  /** What an end took last is not what it waits for, unless it is a Commit to which
      it does not give way. */
  predicate StillWaits(e: Endpoint, side: Side, sent: seq<Message>, gives: bool) {
    && side.taken <= |sent|
    && (e.state == DiscoveryInit ==> side.taken == 0)
    && (side.taken > 0 && Awaits(e.state, sent[side.taken - 1]) ==> Ignored(e, sent[side.taken - 1]) && !gives)
  }

  /** The packet of an end's state is the last it sent. */
  predicate Said(e: Endpoint, sent: seq<Message>) {
    Packet(e).Some? ==> sent != [] && sent[|sent| - 1] == Packet(e).value
  }

  predicate SendsHellos(state: State) {
    state == DiscoveryInit || state == WaitingForHelloAck
  }

  predicate HasHello(sent: seq<Message>, from: nat) {
    exists k :: from <= k < |sent| && IsHello(Some(sent[k]))
  }

  /** A Hello was sent or will be. */
  predicate Calls(e: Endpoint, side: Side, sent: seq<Message>) {
    SendsHellos(e.state) ==> side.timer.on || HasHello(sent, 0)
  }

  predicate HasHelloAck(sent: seq<Message>, from: nat) {
    exists k :: from <= k < |sent| && sent[k] == HelloAck
  }

  /** Of two ends that have each other's Hello, the last to take one answered with a
      HelloACK that nothing has overtaken. */
  predicate Acknowledged(s: Timed) {
    s.g.x.state == WaitingForHelloAck && s.g.y.state == WaitingForHelloAck ==>
      HasHelloAck(s.g.sentX, s.y.taken) || HasHelloAck(s.g.sentY, s.x.taken)
  }

  /** gx and gy tell if the Commits of x and of y lose the contention. */
  predicate Ordered(s: Timed, gx: bool, gy: bool) {
    && StillWaits(s.g.x, s.x, s.g.sentY, gx) && StillWaits(s.g.y, s.y, s.g.sentX, gy)
    && Said(s.g.x, s.g.sentX) && Said(s.g.y, s.g.sentY)
    && Calls(s.g.x, s.x, s.g.sentX) && Calls(s.g.y, s.y, s.g.sentY)
    && Acknowledged(s)
  }

  lemma TakingKeepsWaiting(e: Endpoint, side: Side, sent: seq<Message>, gives: bool, k: nat, o: Outcome)
    requires StillWaits(e, side, sent, gives) && side.taken <= k < |sent| && o.ret == Done && Steps(e, sent[k], o)
    requires gives && Ignored(e, sent[k]) ==> o.next.state != e.state
    ensures StillWaits(o.next, Took(e, side, k, sent[k], o), sent, gives)
  {
  }

  lemma MoreKeepsWaiting(e: Endpoint, side: Side, sent: seq<Message>, gives: bool, more: seq<Message>)
    requires StillWaits(e, side, sent, gives)
    ensures StillWaits(e, side, sent + more, gives)
  {
  }

  lemma SpeakingKeepsSaid(e: Endpoint, sent: seq<Message>, o: Outcome)
    requires Said(e, sent) && SaysLast(e, o)
    ensures Said(o.next, sent + o.sent)
  {
  }

  lemma MoreHellos(sent: seq<Message>, from: nat, more: seq<Message>)
    ensures HasHello(sent, from) ==> HasHello(sent + more, from)
    ensures HasHelloAck(sent, from) ==> HasHelloAck(sent + more, from)
  {
    if HasHello(sent, from) {
      var k :| from <= k < |sent| && IsHello(Some(sent[k]));
      assert (sent + more)[k] == sent[k];
    }
    if HasHelloAck(sent, from) {
      var k :| from <= k < |sent| && sent[k] == HelloAck;
      assert (sent + more)[k] == sent[k];
    }
  }

  lemma TakingKeepsCalls(e: Endpoint, side: Side, sent: seq<Message>, k: nat, m: Message, o: Outcome)
    requires Calls(e, side, sent) && Steps(e, m, o)
    ensures Calls(o.next, Took(e, side, k, m, o), sent + o.sent)
  {
    MoreHellos(sent, 0, o.sent);
  }

  lemma NewestIsPending(sent: seq<Message>, from: nat, more: seq<Message>)
    requires from <= |sent|
    ensures more == [HelloAck] ==> HasHelloAck(sent + more, from)
    ensures more != [] && IsHello(Some(more[0])) ==> HasHello(sent + more, from)
  {
    if more != [] {
      assert (sent + more)[|sent|] == more[0];
    }
  }

  // What x takes of the packets of y.
  lemma TakenKeepsOrder(c: Crypto, s: Timed, k: nat, gx: bool, gy: bool)
    requires Ordered(s, gx, gy) && s.x.taken <= k < |s.g.sentY| && InRole(s.g.x)
    requires var o := Receive(c, s.g.x, s.g.sentY[k]);
             && o.ret == Done && (gx && Ignored(s.g.x, s.g.sentY[k]) ==> o.next.state != s.g.x.state)
    ensures Ordered(GiveX(c, s, k), gx, gy)
  {
    TakenMessageSteps(c, s.g.x, s.g.sentY[k]);
    StepKeepsOrder(s, k, Receive(c, s.g.x, s.g.sentY[k]), gx, gy);
  }

  lemma StepKeepsOrder(s: Timed, k: nat, o: Outcome, gx: bool, gy: bool)
    requires Ordered(s, gx, gy) && s.x.taken <= k < |s.g.sentY|
    requires Steps(s.g.x, s.g.sentY[k], o) && o.ret == Done
    requires gx && Ignored(s.g.x, s.g.sentY[k]) ==> o.next.state != s.g.x.state
    ensures Ordered(Timed(UpdateX(s.g, o), Took(s.g.x, s.x, k, s.g.sentY[k], o), s.y), gx, gy)
  {
    TakingKeepsWaiting(s.g.x, s.x, s.g.sentY, gx, k, o);
    MoreKeepsWaiting(s.g.y, s.y, s.g.sentX, gy, o.sent);
    SpeakingKeepsSaid(s.g.x, s.g.sentX, o);
    TakingKeepsCalls(s.g.x, s.x, s.g.sentX, k, s.g.sentY[k], o);
    NewestIsPending(s.g.sentX, s.y.taken, o.sent);
  }

  lemma RefusedKeepsOrder(s: Timed, k: nat, o: Outcome, gx: bool, gy: bool)
    requires Ordered(s, gx, gy) && k < |s.g.sentY| && o.ret != Done && o.next == s.g.x && o.sent == []
    ensures Timed(UpdateX(s.g, o), Took(s.g.x, s.x, k, s.g.sentY[k], o), s.y) == s
  {
    assert s.g.sentX + [] == s.g.sentX;
  }

  // A timer that fires repeats the Hello or the packet of the state.
  predicate RepeatsPacket(e: Endpoint, o: Outcome) {
    && o.next == e && SaysLast(e, o)
    && (SendsHellos(e.state) ==> o.sent != [] && IsHello(Some(o.sent[0])))
  }

  lemma TickRepeats(c: Crypto, e: Endpoint)
    requires Tick(c, e).ret == Done
    ensures RepeatsPacket(e, Tick(c, e))
  {
  }

  lemma RepeatingKeepsOrder(s: Timed, o: Outcome, now: nat, gx: bool, gy: bool)
    requires Ordered(s, gx, gy) && RepeatsPacket(s.g.x, o)
    ensures Ordered(Timed(UpdateX(s.g, o), Iterated(s.g.x.state, s.x, now), s.y), gx, gy)
  {
    MoreKeepsWaiting(s.g.y, s.y, s.g.sentX, gy, o.sent);
    SpeakingKeepsSaid(s.g.x, s.g.sentX, o);
    NewestIsPending(s.g.sentX, 0, o.sent);
    MoreHellos(s.g.sentX, s.y.taken, o.sent);
  }

  lemma OrderedMirrored(s: Timed, gx: bool, gy: bool)
    ensures Ordered(s, gx, gy) <==> Ordered(MirroredTimed(s), gy, gx)
  {
  }
}
