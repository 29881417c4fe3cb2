/** Runs of two honest ends over a network that loses, duplicates, delays and
    reorders messages but does not forge them. */
module Runs {
  import opened Octets
  import opened Negotiation
  import opened Agreement
  import opened RetainedSecrets
  import opened Messages
  import opened Protocol
  import opened Exchange
  import opened Transitions

  // ---------------------------------------------------------------------
  // One end: what it may have sent at each stage, and which stages follow

  /** The messages an end may have sent once at a stage: t is the script in which
      it is the initiator, u the one in which it is the responder. */
  predicate MaySend(t: Script, u: Script, dh: bool, stage: Stage, m: Message) {
    || m == t.initiatorHello
    || (m == HelloAck && stage !in {Discovering, HelloAcked})
    || (m == t.commit && stage !in {Discovering, HelloAcked, Greeted})
    || (m == t.dhPart2 && dh && stage in {Initiating, InitiatorConfirming, InitiatorSecure})
    || (m == t.confirm2 && stage in {InitiatorConfirming, InitiatorSecure})
    || (m == u.dhPart1 && dh && stage in {Responding, ResponderConfirming, ResponderSecure})
    || (m == u.confirm1 && stage in {ResponderConfirming, ResponderSecure})
    || (m == Conf2Ack && stage == ResponderSecure)
  }

  predicate IsInitiatorStage(stage: Stage) {
    stage in {Initiating, InitiatorConfirming, InitiatorSecure}
  }

  predicate IsResponderStage(stage: Stage) {
    stage in {Responding, ResponderConfirming, ResponderSecure}
  }

  /** One end's stage given the other's. committed tells if the end itself ever
      sent a Commit, givesWay if its Commit loses the contention. */
  predicate Fits(dh: bool, stage: Stage, committed: bool, givesWay: bool, peer: Stage) {
    match stage
    case Discovering => !committed
    case HelloAcked => !committed && peer == Greeted
    case Greeted => !committed
    case Committing => committed && peer !in {Discovering, HelloAcked}
    case Initiating => committed && dh && peer in {Responding, ResponderConfirming}
    case InitiatorConfirming => committed && peer in {ResponderConfirming, ResponderSecure}
    case InitiatorSecure => committed && peer == ResponderSecure
    case Responding => (committed ==> givesWay) && dh && peer in {Committing, Initiating}
    case ResponderConfirming => (committed ==> givesWay) && peer in (if dh then {Initiating, InitiatorConfirming} else {Committing, InitiatorConfirming})
    case ResponderSecure => (committed ==> givesWay) && peer in {InitiatorConfirming, InitiatorSecure}
  }

  /** The stage reached on one message of the peer. */
  predicate Follows(dh: bool, stage: Stage, next: Stage, givesWay: bool, peer: Stage, peerCommitted: bool) {
    next == stage
    || match stage
       case Discovering => next == Greeted || (next == HelloAcked && peer !in {Discovering, HelloAcked})
       case HelloAcked => next == Committing
       case Greeted => (next == Committing && peer !in {Discovering, HelloAcked}) || (peerCommitted && next == if dh then Responding else ResponderConfirming)
       case Committing =>
         || (peerCommitted && givesWay && next == if dh then Responding else ResponderConfirming)
         || (dh && next == Initiating && IsResponderStage(peer))
         || (!dh && next == InitiatorConfirming && IsResponderStage(peer))
       case Responding => next == ResponderConfirming && IsInitiatorStage(peer)
       case Initiating => next == InitiatorConfirming && peer in {ResponderConfirming, ResponderSecure}
       case ResponderConfirming => next == ResponderSecure && peer in {InitiatorConfirming, InitiatorSecure}
       case InitiatorConfirming => next == InitiatorSecure && peer == ResponderSecure
       case _ => false
  }

  /** What an honest peer's message can be, by its type. */
  predicate Expected(t: Script, u: Script, m: Message) {
    match m
    case Signed(HelloBody(_), _) => m == t.responderHello
    case Signed(CommitBody(_), _) => m == u.commit
    case Signed(DhPart1Body(_), _) => m == t.dhPart1
    case Signed(DhPart2Body(_), _) => m == u.dhPart2
    case Confirm1(_) => m == t.confirm1
    case Confirm2(_) => m == u.confirm2
    case _ => true
  }

  /** The peer's stage, told by a message it may have sent. */
  predicate Tells(dh: bool, peer: Stage, m: Message) {
    match m
    case Signed(HelloBody(_), _) => true
    case Signed(CommitBody(_), _) => peer !in {Discovering, HelloAcked, Greeted}
    case Signed(DhPart1Body(_), _) => dh && IsResponderStage(peer)
    case Signed(DhPart2Body(_), _) => dh && IsInitiatorStage(peer)
    case Confirm1(_) => peer in {ResponderConfirming, ResponderSecure}
    case Confirm2(_) => peer in {InitiatorConfirming, InitiatorSecure}
    case HelloAck => peer !in {Discovering, HelloAcked}
    case Conf2Ack => peer == ResponderSecure
  }

  predicate Typed(t: Script) {
    AllSigned(t) && t.confirm1.Confirm1? && t.confirm2.Confirm2?
  }

  lemma MessagesTell(t: Script, u: Script, dh: bool, peer: Stage, m: Message)
    requires Typed(t) && Typed(u) && u.initiatorHello == t.responderHello
    requires MaySend(u, t, dh, peer, m)
    ensures Expected(t, u, m) && Tells(dh, peer, m)
  {
  }

  // ---------------------------------------------------------------------
  // One message, stage by stage

  /** Nothing changes, and at most the given message is sent, none on a refusal. */
  predicate Idle(e: Endpoint, o: Outcome, answer: Option<Message>) {
    o.ret != Fault && o.next == e && (o.sent == [] || (answer.Some? && o.sent == [answer.value] && o.ret == Done))
  }

  lemma OnHelloInDiscovery(c: Crypto, x: Party, y: Party, t: Script, e: Endpoint)
    requires OneMode(x, y) && Selects(x, y) && MessagesOf(c, x, y, t) && AllSigned(t) && e == Start(x.cfg)
    ensures var o := OnDiscoveryInit(c, e, t.responderHello);
            o.ret == Done && o.sent == [HelloAck] && IsGreeted(x, y, t, o.next)
  {
    HelloGreets(c, x, y, t, e);
  }

  lemma OnHelloOnceAcked(c: Crypto, x: Party, y: Party, t: Script, e: Endpoint)
    requires OneMode(x, y) && Selects(x, y) && MessagesOf(c, x, y, t) && AllSigned(t)
    requires e == Start(x.cfg).(state := WaitingForHello)
    ensures var o := OnWaitingForHello(c, e, t.responderHello);
            o.ret == Done && o.sent == [HelloAck, t.commit] && IsCommitting(x, y, t, o.next)
  {
    HelloGreets(c, x, y, t, e);
    CommitStarts(c, x, y, t, ResponseToHello(c, e, t.responderHello).next.(state := SendingCommit));
  }

  lemma AtDiscovering(c: Crypto, x: Party, y: Party, t: Script, u: Script, e: Endpoint, m: Message)
    requires OneMode(x, y) && Selects(x, y) && MessagesOf(c, x, y, t) && AllSigned(t) && e == Start(x.cfg)
    requires Expected(t, u, m)
    ensures var o := OnDiscoveryInit(c, e, m);
            if IsHello(Some(m)) then o.ret == Done && o.sent == [HelloAck] && IsGreeted(x, y, t, o.next)
            else if m.HelloAck? then o == Outcome(e.(state := WaitingForHello), [], Done)
            else Idle(e, o, None)
  {
    OnHelloInDiscovery(c, x, y, t, e);
  }

  lemma AtHelloAcked(c: Crypto, x: Party, y: Party, t: Script, u: Script, e: Endpoint, m: Message)
    requires OneMode(x, y) && Selects(x, y) && MessagesOf(c, x, y, t) && AllSigned(t)
    requires e == Start(x.cfg).(state := WaitingForHello)
    requires Expected(t, u, m)
    ensures var o := OnWaitingForHello(c, e, m);
            if IsHello(Some(m)) then o.ret == Done && o.sent == [HelloAck, t.commit] && IsCommitting(x, y, t, o.next)
            else Idle(e, o, None)
  {
    OnHelloOnceAcked(c, x, y, t, e);
  }

  lemma OnHelloAckWhenGreeted(c: Crypto, x: Party, y: Party, t: Script, e: Endpoint)
    requires OneMode(x, y) && AllSigned(t) && t.commit == CommitFrom(c, x, t.dhPart2, t.responderHello)
    requires IsGreeted(x, y, t, e)
    ensures var o := OnWaitingForHelloAck(c, e, HelloAck);
            o.ret == Done && o.sent == [t.commit] && IsCommitting(x, y, t, o.next)
  {
    CommitStarts(c, x, y, t, e.(state := SendingCommit));
    assert OnWaitingForHelloAck(c, e, HelloAck) == EnterSendingCommit(c, e.(state := SendingCommit));
  }

  lemma OnCommitWhenGreeted(c: Crypto, x: Party, y: Party, t: Script, u: Script, e: Endpoint)
    requires OneMode(x, y) && LengthsHold(c, y, x, u) && IsGreeted(x, y, t, e)
    requires u.initiatorHello == SelfHello(c, y.cfg) && u.commit == CommitFrom(c, y, u.dhPart2, u.responderHello)
    requires u.initiatorHello == t.responderHello
    ensures OnWaitingForHelloAck(c, e, u.commit) == TurnIntoResponder(c, e, u.commit)
  {
    CommitAccepted(c, x, y, u, e);
  }

  /** What x becomes when it takes the responder's role. */
  predicate BecomesResponder(x: Party, y: Party, u: Script, o: Outcome) {
    && o.ret == Done
    && if NonDh(x.Ka()) then o.sent == [u.confirm1] && IsResponderConfirming(x, y, u, o.next)
       else o.sent == [u.dhPart1] && IsResponding(x, y, u, o.next)
  }

  lemma TurnsIntoResponder(c: Crypto, x: Party, y: Party, t: Script, u: Script, e: Endpoint)
    requires OneMode(x, y) && LengthsHold(c, x, y, t) && MessagesOf(c, x, y, t)
    requires AllSigned(u) && MessagesOf(c, y, x, u) && KeysOf(c, y, x, u) && ConfirmsOf(c, y, x, u)
    requires Prepared(x, y, t, e)
    ensures BecomesResponder(x, y, u, TurnIntoResponder(c, e, u.commit))
  {
    if NonDh(x.Ka()) {
      CommitTurnsIntoConfirming(c, x, y, t, u, e);
    } else {
      CommitTurnsIntoResponder(c, x, y, t, u, e);
    }
  }

  // Any message but a HelloACK or a Commit.
  lemma AtGreeted(c: Crypto, x: Party, y: Party, t: Script, u: Script, e: Endpoint, m: Message)
    requires IsGreeted(x, y, t, e) && Expected(t, u, m) && !m.HelloAck? && !IsCommit(Some(m))
    ensures Idle(e, OnWaitingForHelloAck(c, e, m), Some(HelloAck))
  {
  }

  predicate GivesWayTo(t: Script, u: Script) {
    IsCommit(Some(t.commit)) && IsCommit(Some(u.commit)) && GivesWay(t.commit.body.commit, u.commit.body.commit, false, false)
  }

  lemma OnCommitWhenCommitting(c: Crypto, x: Party, y: Party, t: Script, u: Script, e: Endpoint)
    requires OneMode(x, y) && LengthsHold(c, y, x, u) && IsCommitting(x, y, t, e) && AllSigned(t)
    requires u.initiatorHello == SelfHello(c, y.cfg) && u.commit == CommitFrom(c, y, u.dhPart2, u.responderHello)
    requires u.initiatorHello == t.responderHello
    ensures OnSendingCommit(c, e, u.commit) ==
            if GivesWayTo(t, u) then TurnIntoResponder(c, e.(role := Responder, selfCommit := None), u.commit) else Outcome(e, [], Done)
  {
    CommitAccepted(c, x, y, u, e);
  }

  lemma OnDhPart1WhenCommitting(c: Crypto, x: Party, y: Party, t: Script, e: Endpoint)
    requires OneMode(x, y) && !NonDh(x.Ka()) && LengthsHold(c, x, y, t) && IsCommitting(x, y, t, e)
    requires t.responderHello == SelfHello(c, y.cfg) && t.dhPart1 == DhPart1Packet(c, y.cfg, t.responderIds, AnswerValue(c, y, x))
    ensures OnSendingCommit(c, e, t.dhPart1) == OnDhPart1(c, e, t.dhPart1)
  {
    DhPart1Accepted(c, x, y, t, e);
  }

  predicate BecomesInitiator(x: Party, y: Party, t: Script, o: Outcome) {
    o.ret == Done && o.sent == [t.dhPart2] && IsInitiating(x, y, t, o.next)
  }

  predicate Confirms(x: Party, y: Party, t: Script, o: Outcome) {
    o.ret == Done && o.sent == [t.confirm2] && IsInitiatorConfirming(x, y, t, o.next)
  }

  // Any other message, a Confirm1 included unless the mode has no DHPart.
  lemma AtCommitting(c: Crypto, e: Endpoint, m: Message)
    requires e.state == SendingCommit && !IsCommit(Some(m)) && !(m.Signed? && m.body.DhPart1Body?)
    requires m.Confirm1? ==> !NonDh(e.algos.keyAgreement)
    ensures Idle(e, OnSendingCommit(c, e, m), None)
  {
  }

  lemma AtResponding(c: Crypto, x: Party, y: Party, t: Script, u: Script, e: Endpoint, m: Message)
    requires OneMode(x, y) && AllSigned(u) && IsResponding(x, y, u, e)
    requires ParseDhPart(c, e, u.dhPart2, false) == 0
    requires Expected(t, u, m)
    ensures var o := OnResponderSendingDhPart1(c, e, m);
            if m.Signed? && m.body.DhPart2Body? then o == OnDhPart2(c, e, u.dhPart2)
            else Idle(e, o, Some(u.dhPart1))
  {
  }

  lemma AtInitiating(c: Crypto, x: Party, y: Party, t: Script, u: Script, e: Endpoint, m: Message)
    requires OneMode(x, y) && AllSigned(t) && IsInitiating(x, y, t, e) && Expected(t, u, m)
    ensures var o := OnInitiatorSendingDhPart2(c, e, m);
            if m.Confirm1? then o == OnConfirm1(c, e, t.confirm1) else Idle(e, o, None)
  {
  }

  // Any message but a Confirm2.
  lemma AtResponderConfirming(c: Crypto, x: Party, y: Party, t: Script, u: Script, e: Endpoint, m: Message)
    requires Typed(u) && IsResponderConfirming(x, y, u, e) && x.Ka() == y.Ka()
    requires Expected(t, u, m) && (IsDhPart(Some(m)) ==> !NonDh(x.Ka())) && !m.Confirm2?
    ensures Idle(e, OnResponderSendingConfirm1(c, e, m), Some(u.confirm1))
  {
  }

  lemma AtInitiatorConfirming(c: Crypto, x: Party, y: Party, t: Script, u: Script, e: Endpoint, m: Message)
    requires IsInitiatorConfirming(x, y, t, e) && Expected(t, u, m)
    ensures var o := OnInitiatorSendingConfirm2(c, e, m);
            if m.Conf2Ack? then o == OnInitiatorSendingConfirm2(c, e, Conf2Ack) else Idle(e, o, None)
  {
  }

  lemma AtSecure(c: Crypto, x: Party, y: Party, t: Script, u: Script, e: Endpoint, m: Message)
    requires IsInitiatorSecure(x, y, t, e) || IsResponderSecure(x, y, u, e)
    requires Typed(t) && Typed(u) && Expected(t, u, m)
    ensures Idle(e, OnSecure(c, e, m), if e.role == Responder then Some(Conf2Ack) else None)
  {
  }

  // ---------------------------------------------------------------------
  // One message, judged from outside

  /** The outcome of one message at an end: no fault, a refusal that changes
      nothing, or a stage that follows with everything it calls for, only messages
      of the script sent, keys kept. */
  ghost predicate Proper(x: Party, y: Party, t: Script, u: Script, e: Endpoint, o: Outcome, peer: Stage, peerCommitted: bool) {
    var dh := !NonDh(x.Ka());
    && o.ret != Fault && (o.ret != Done ==> o.next == e && o.sent == [])
    && AtStage(x, y, t, u, o.next)
    && Follows(dh, StageOf(e), StageOf(o.next), GivesWayTo(t, u), peer, peerCommitted)
    && (forall m :: m in o.sent ==> MaySend(t, u, dh, StageOf(o.next), m))
    && (StageOf(o.next) == Committing && StageOf(e) != Committing ==> t.commit in o.sent)
    && (t.commit in o.sent ==> StageOf(o.next) == Committing)
    && (e.keys.Some? ==> o.next.keys == e.keys)
  }

  // The peer sent m, a message of the script.
  predicate Sent(t: Script, u: Script, dh: bool, peer: Stage, peerCommitted: bool, m: Message) {
    Expected(t, u, m) && Tells(dh, peer, m) && (IsCommit(Some(m)) ==> peerCommitted)
  }

  lemma IdleIsProper(x: Party, y: Party, t: Script, u: Script, e: Endpoint, o: Outcome, answer: Option<Message>, peer: Stage, cy: bool)
    requires Typed(t) && Typed(u) && AtStage(x, y, t, u, e) && Idle(e, o, answer)
    requires answer.Some? ==> answer.value != t.commit && MaySend(t, u, !NonDh(x.Ka()), StageOf(e), answer.value)
    ensures Proper(x, y, t, u, e, o, peer, cy)
  {
  }

  lemma DiscoveringProper(x: Party, y: Party, t: Script, u: Script, e: Endpoint, m: Message, o: Outcome, peer: Stage, cy: bool)
    requires Typed(t) && Typed(u) && e == Start(x.cfg) && AtStage(x, y, t, u, e)
    requires Sent(t, u, !NonDh(x.Ka()), peer, cy, m)
    requires if IsHello(Some(m)) then o.ret == Done && o.sent == [HelloAck] && IsGreeted(x, y, t, o.next)
             else if m.HelloAck? then o == Outcome(e.(state := WaitingForHello), [], Done)
             else Idle(e, o, None)
    ensures Proper(x, y, t, u, e, o, peer, cy)
  {
  }

  lemma HelloAckedProper(x: Party, y: Party, t: Script, u: Script, e: Endpoint, m: Message, o: Outcome, peer: Stage, cy: bool)
    requires Typed(t) && Typed(u) && e == Start(x.cfg).(state := WaitingForHello) && AtStage(x, y, t, u, e)
    requires if IsHello(Some(m)) then o.ret == Done && o.sent == [HelloAck, t.commit] && IsCommitting(x, y, t, o.next)
             else Idle(e, o, None)
    ensures Proper(x, y, t, u, e, o, peer, cy)
  {
  }

  lemma GreetedProper(x: Party, y: Party, t: Script, u: Script, e: Endpoint, m: Message, o: Outcome, peer: Stage, cy: bool)
    requires OneMode(x, y) && Typed(t) && Typed(u) && IsGreeted(x, y, t, e) && AtStage(x, y, t, u, e)
    requires Sent(t, u, !NonDh(x.Ka()), peer, cy, m)
    requires if m.HelloAck? then o.ret == Done && o.sent == [t.commit] && IsCommitting(x, y, t, o.next)
             else if IsCommit(Some(m)) then BecomesResponder(x, y, u, o)
             else Idle(e, o, Some(HelloAck))
    ensures Proper(x, y, t, u, e, o, peer, cy)
  {
  }

  lemma CommittingProper(x: Party, y: Party, t: Script, u: Script, e: Endpoint, m: Message, o: Outcome, peer: Stage, cy: bool)
    requires OneMode(x, y) && Typed(t) && Typed(u) && IsCommitting(x, y, t, e) && AtStage(x, y, t, u, e)
    requires Sent(t, u, !NonDh(x.Ka()), peer, cy, m)
    requires if IsCommit(Some(m)) && GivesWayTo(t, u) then BecomesResponder(x, y, u, o)
             else if m.Signed? && m.body.DhPart1Body? then BecomesInitiator(x, y, t, o)
             else if m.Confirm1? && NonDh(x.Ka()) then Confirms(x, y, t, o)
             else Idle(e, o, None)
    ensures Proper(x, y, t, u, e, o, peer, cy)
  {
  }

  lemma RespondingProper(x: Party, y: Party, t: Script, u: Script, e: Endpoint, m: Message, o: Outcome, peer: Stage, cy: bool)
    requires OneMode(x, y) && Typed(t) && Typed(u) && IsResponding(x, y, u, e) && AtStage(x, y, t, u, e)
    requires Sent(t, u, !NonDh(x.Ka()), peer, cy, m)
    requires if m.Signed? && m.body.DhPart2Body? then o.ret == Done && o.sent == [u.confirm1] && IsResponderConfirming(x, y, u, o.next)
             else Idle(e, o, Some(u.dhPart1))
    ensures Proper(x, y, t, u, e, o, peer, cy)
  {
  }

  lemma InitiatingProper(x: Party, y: Party, t: Script, u: Script, e: Endpoint, m: Message, o: Outcome, peer: Stage, cy: bool)
    requires OneMode(x, y) && Typed(t) && Typed(u) && IsInitiating(x, y, t, e) && AtStage(x, y, t, u, e)
    requires Sent(t, u, !NonDh(x.Ka()), peer, cy, m)
    requires if m.Confirm1? then Confirms(x, y, t, o) else Idle(e, o, None)
    ensures Proper(x, y, t, u, e, o, peer, cy)
  {
  }

  lemma ResponderConfirmingProper(x: Party, y: Party, t: Script, u: Script, e: Endpoint, m: Message, o: Outcome, peer: Stage, cy: bool)
    requires OneMode(x, y) && Typed(t) && Typed(u) && IsResponderConfirming(x, y, u, e) && AtStage(x, y, t, u, e)
    requires Sent(t, u, !NonDh(x.Ka()), peer, cy, m)
    requires if m.Confirm2? then o.ret == Done && o.sent == [Conf2Ack] && IsResponderSecure(x, y, u, o.next)
             else Idle(e, o, Some(u.confirm1))
    ensures Proper(x, y, t, u, e, o, peer, cy)
  {
  }

  lemma InitiatorConfirmingProper(x: Party, y: Party, t: Script, u: Script, e: Endpoint, m: Message, o: Outcome, peer: Stage, cy: bool)
    requires OneMode(x, y) && Typed(t) && Typed(u) && IsInitiatorConfirming(x, y, t, e) && AtStage(x, y, t, u, e)
    requires Sent(t, u, !NonDh(x.Ka()), peer, cy, m)
    requires if m.Conf2Ack? then o.ret == Done && o.sent == [] && IsInitiatorSecure(x, y, t, o.next) else Idle(e, o, None)
    ensures Proper(x, y, t, u, e, o, peer, cy)
  {
  }

  /** The two scripts of x and y with what the cryptography owes both: t is that
      of x as initiator, u that of y as initiator. */
  ghost predicate Setting(c: Crypto, x: Party, y: Party, t: Script, u: Script) {
    && Selects(x, y) && Selects(y, x)
    && IsScript(c, x, y, t) && IsScript(c, y, x, u) && Sound(c, x, y, t) && Sound(c, y, x, u)
  }

  lemma ReceivesDiscovering(c: Crypto, x: Party, y: Party, t: Script, u: Script, e: Endpoint, m: Message, peer: Stage, cy: bool)
    requires Setting(c, x, y, t, u) && Sent(t, u, !NonDh(x.Ka()), peer, cy, m)
    requires AtStage(x, y, t, u, e) && e.state == DiscoveryInit
    ensures Proper(x, y, t, u, e, OnDiscoveryInit(c, e, m), peer, cy)
  {
    AtDiscovering(c, x, y, t, u, e, m);
    DiscoveringProper(x, y, t, u, e, m, OnDiscoveryInit(c, e, m), peer, cy);
  }

  lemma ReceivesHelloAcked(c: Crypto, x: Party, y: Party, t: Script, u: Script, e: Endpoint, m: Message, peer: Stage, cy: bool)
    requires Setting(c, x, y, t, u) && Sent(t, u, !NonDh(x.Ka()), peer, cy, m)
    requires AtStage(x, y, t, u, e) && e.state == WaitingForHello
    ensures Proper(x, y, t, u, e, OnWaitingForHello(c, e, m), peer, cy)
  {
    AtHelloAcked(c, x, y, t, u, e, m);
    HelloAckedProper(x, y, t, u, e, m, OnWaitingForHello(c, e, m), peer, cy);
  }

  lemma GreetedReceivesHelloAck(c: Crypto, x: Party, y: Party, t: Script, u: Script, e: Endpoint, peer: Stage, cy: bool)
    requires Setting(c, x, y, t, u) && Sent(t, u, !NonDh(x.Ka()), peer, cy, HelloAck)
    requires AtStage(x, y, t, u, e) && e.state == WaitingForHelloAck
    ensures Proper(x, y, t, u, e, OnWaitingForHelloAck(c, e, HelloAck), peer, cy)
  {
    OnHelloAckWhenGreeted(c, x, y, t, e);
    GreetedProper(x, y, t, u, e, HelloAck, OnWaitingForHelloAck(c, e, HelloAck), peer, cy);
  }

  lemma GreetedReceivesCommit(c: Crypto, x: Party, y: Party, t: Script, u: Script, e: Endpoint, peer: Stage, cy: bool)
    requires Setting(c, x, y, t, u) && Sent(t, u, !NonDh(x.Ka()), peer, cy, u.commit)
    requires AtStage(x, y, t, u, e) && e.state == WaitingForHelloAck
    ensures Proper(x, y, t, u, e, OnWaitingForHelloAck(c, e, u.commit), peer, cy)
  {
    TurnsIntoResponder(c, x, y, t, u, e);
    OnCommitWhenGreeted(c, x, y, t, u, e);
    GreetedProper(x, y, t, u, e, u.commit, OnWaitingForHelloAck(c, e, u.commit), peer, cy);
  }

  lemma ReceivesGreeted(c: Crypto, x: Party, y: Party, t: Script, u: Script, e: Endpoint, m: Message, peer: Stage, cy: bool)
    requires Setting(c, x, y, t, u) && Sent(t, u, !NonDh(x.Ka()), peer, cy, m)
    requires AtStage(x, y, t, u, e) && e.state == WaitingForHelloAck
    ensures Proper(x, y, t, u, e, OnWaitingForHelloAck(c, e, m), peer, cy)
  {
    if m.HelloAck? {
      GreetedReceivesHelloAck(c, x, y, t, u, e, peer, cy);
    } else if IsCommit(Some(m)) {
      GreetedReceivesCommit(c, x, y, t, u, e, peer, cy);
    } else {
      AtGreeted(c, x, y, t, u, e, m);
      IdleIsProper(x, y, t, u, e, OnWaitingForHelloAck(c, e, m), Some(HelloAck), peer, cy);
    }
  }

  lemma CommittingMeetsCommit(c: Crypto, x: Party, y: Party, t: Script, u: Script, e: Endpoint)
    requires Setting(c, x, y, t, u) && IsCommitting(x, y, t, e)
    ensures BecomesResponder(x, y, u, TurnIntoResponder(c, e.(role := Responder, selfCommit := None), u.commit))
    ensures OnSendingCommit(c, e, u.commit) ==
            if GivesWayTo(t, u) then TurnIntoResponder(c, e.(role := Responder, selfCommit := None), u.commit) else Outcome(e, [], Done)
  {
    TurnsIntoResponder(c, x, y, t, u, e.(role := Responder, selfCommit := None));
    OnCommitWhenCommitting(c, x, y, t, u, e);
  }

  lemma CommittingMeetsDhPart1(c: Crypto, x: Party, y: Party, t: Script, u: Script, e: Endpoint)
    requires Setting(c, x, y, t, u) && IsCommitting(x, y, t, e) && !NonDh(x.Ka())
    ensures OnSendingCommit(c, e, t.dhPart1) == OnDhPart1(c, e, t.dhPart1)
    ensures BecomesInitiator(x, y, t, OnDhPart1(c, e, t.dhPart1))
  {
    OnDhPart1WhenCommitting(c, x, y, t, e);
    SecretsMatch(c, x, y, t);
    InitiatorDerives(c, x, y, t, e);
  }

  lemma CommittingMeetsConfirm1(c: Crypto, x: Party, y: Party, t: Script, u: Script, e: Endpoint)
    requires Setting(c, x, y, t, u) && IsCommitting(x, y, t, e) && NonDh(x.Ka())
    ensures Confirms(x, y, t, OnCommitConfirmed(c, e, t.confirm1))
  {
    CommitConfirmed(c, x, y, t, e);
  }

  lemma CommittingReceivesCommit(c: Crypto, x: Party, y: Party, t: Script, u: Script, e: Endpoint, peer: Stage, cy: bool)
    requires Setting(c, x, y, t, u) && Sent(t, u, !NonDh(x.Ka()), peer, cy, u.commit)
    requires AtStage(x, y, t, u, e) && e.state == SendingCommit
    ensures Proper(x, y, t, u, e, OnSendingCommit(c, e, u.commit), peer, cy)
  {
    CommittingMeetsCommit(c, x, y, t, u, e);
    CommittingProper(x, y, t, u, e, u.commit, OnSendingCommit(c, e, u.commit), peer, cy);
  }

  lemma CommittingReceivesDhPart1(c: Crypto, x: Party, y: Party, t: Script, u: Script, e: Endpoint, peer: Stage, cy: bool)
    requires Setting(c, x, y, t, u) && Sent(t, u, !NonDh(x.Ka()), peer, cy, t.dhPart1)
    requires AtStage(x, y, t, u, e) && e.state == SendingCommit
    ensures Proper(x, y, t, u, e, OnSendingCommit(c, e, t.dhPart1), peer, cy)
  {
    CommittingMeetsDhPart1(c, x, y, t, u, e);
    CommittingProper(x, y, t, u, e, t.dhPart1, OnSendingCommit(c, e, t.dhPart1), peer, cy);
  }

  lemma CommittingReceivesConfirm1(c: Crypto, x: Party, y: Party, t: Script, u: Script, e: Endpoint, peer: Stage, cy: bool)
    requires Setting(c, x, y, t, u) && Sent(t, u, !NonDh(x.Ka()), peer, cy, t.confirm1) && NonDh(x.Ka())
    requires AtStage(x, y, t, u, e) && e.state == SendingCommit
    ensures Proper(x, y, t, u, e, OnSendingCommit(c, e, t.confirm1), peer, cy)
  {
    CommittingMeetsConfirm1(c, x, y, t, u, e);
    CommittingProper(x, y, t, u, e, t.confirm1, OnSendingCommit(c, e, t.confirm1), peer, cy);
  }

  lemma ReceivesCommitting(c: Crypto, x: Party, y: Party, t: Script, u: Script, e: Endpoint, m: Message, peer: Stage, cy: bool)
    requires Setting(c, x, y, t, u) && Sent(t, u, !NonDh(x.Ka()), peer, cy, m)
    requires AtStage(x, y, t, u, e) && e.state == SendingCommit
    ensures Proper(x, y, t, u, e, OnSendingCommit(c, e, m), peer, cy)
  {
    if IsCommit(Some(m)) {
      CommittingReceivesCommit(c, x, y, t, u, e, peer, cy);
    } else if m.Signed? && m.body.DhPart1Body? {
      CommittingReceivesDhPart1(c, x, y, t, u, e, peer, cy);
    } else if m.Confirm1? && NonDh(x.Ka()) {
      CommittingReceivesConfirm1(c, x, y, t, u, e, peer, cy);
    } else {
      AtCommitting(c, e, m);
      IdleIsProper(x, y, t, u, e, OnSendingCommit(c, e, m), None, peer, cy);
    }
  }

  lemma ReceivesResponding(c: Crypto, x: Party, y: Party, t: Script, u: Script, e: Endpoint, m: Message, peer: Stage, cy: bool)
    requires Setting(c, x, y, t, u) && Sent(t, u, !NonDh(x.Ka()), peer, cy, m)
    requires AtStage(x, y, t, u, e) && e.state == ResponderSendingDhPart1
    ensures Proper(x, y, t, u, e, OnResponderSendingDhPart1(c, e, m), peer, cy)
  {
    DhPart2Accepted(c, x, y, u, e);
    SecretsMatch(c, y, x, u);
    ResponderDerives(c, x, y, u, e);
    AtResponding(c, x, y, t, u, e, m);
    RespondingProper(x, y, t, u, e, m, OnResponderSendingDhPart1(c, e, m), peer, cy);
  }

  lemma ReceivesInitiating(c: Crypto, x: Party, y: Party, t: Script, u: Script, e: Endpoint, m: Message, peer: Stage, cy: bool)
    requires Setting(c, x, y, t, u) && Sent(t, u, !NonDh(x.Ka()), peer, cy, m)
    requires AtStage(x, y, t, u, e) && e.state == InitiatorSendingDhPart2
    ensures Proper(x, y, t, u, e, OnInitiatorSendingDhPart2(c, e, m), peer, cy)
  {
    InitiatorConfirms(c, x, y, t, e);
    AtInitiating(c, x, y, t, u, e, m);
    InitiatingProper(x, y, t, u, e, m, OnInitiatorSendingDhPart2(c, e, m), peer, cy);
  }

  lemma ResponderReceivesConfirm2(c: Crypto, x: Party, y: Party, u: Script, e: Endpoint)
    requires OneMode(x, y) && ConfirmsOf(c, y, x, u)
    requires !NonDh(y.Ka()) ==> u.responderMatch.mismatch == Mismatched(x, y, x)
    requires IsResponderConfirming(x, y, u, e)
    requires ParseConfirm(c, e, u.confirm2.confirm) == 0 && OpenedConfirm(c, e, u.confirm2.confirm).h0 == y.cfg.h0
    ensures var o := OnResponderSendingConfirm1(c, e, u.confirm2);
            o.ret == Done && o.sent == [Conf2Ack] && IsResponderSecure(x, y, u, o.next)
  {
    ResponderSecures(c, x, y, u, e);
    assert OnResponderSendingConfirm1(c, e, u.confirm2) == OnConfirm2(c, e, u.confirm2);
  }

  lemma ResponderConfirmingMeetsConfirm2(c: Crypto, x: Party, y: Party, t: Script, u: Script, e: Endpoint)
    requires Setting(c, x, y, t, u) && IsResponderConfirming(x, y, u, e)
    ensures var o := OnResponderSendingConfirm1(c, e, u.confirm2);
            o.ret == Done && o.sent == [Conf2Ack] && IsResponderSecure(x, y, u, o.next)
  {
    SecretsMatch(c, y, x, u);
    Confirm2Accepted(c, x, y, u, e);
    ResponderReceivesConfirm2(c, x, y, u, e);
  }

  lemma ResponderConfirmingReceivesConfirm2(c: Crypto, x: Party, y: Party, t: Script, u: Script, e: Endpoint, peer: Stage, cy: bool)
    requires Setting(c, x, y, t, u) && Sent(t, u, !NonDh(x.Ka()), peer, cy, u.confirm2)
    requires AtStage(x, y, t, u, e) && e.state == ResponderSendingConfirm1
    ensures Proper(x, y, t, u, e, OnResponderSendingConfirm1(c, e, u.confirm2), peer, cy)
  {
    ResponderConfirmingMeetsConfirm2(c, x, y, t, u, e);
    ResponderConfirmingProper(x, y, t, u, e, u.confirm2, OnResponderSendingConfirm1(c, e, u.confirm2), peer, cy);
  }

  lemma ResponderConfirmingReceivesOther(c: Crypto, x: Party, y: Party, t: Script, u: Script, e: Endpoint, m: Message, peer: Stage, cy: bool)
    requires Typed(t) && Typed(u) && x.Ka() == y.Ka() && Sent(t, u, !NonDh(x.Ka()), peer, cy, m) && !m.Confirm2?
    requires AtStage(x, y, t, u, e) && e.state == ResponderSendingConfirm1
    ensures Proper(x, y, t, u, e, OnResponderSendingConfirm1(c, e, m), peer, cy)
  {
    AtResponderConfirming(c, x, y, t, u, e, m);
    IdleIsProper(x, y, t, u, e, OnResponderSendingConfirm1(c, e, m), Some(u.confirm1), peer, cy);
  }

  lemma ReceivesResponderConfirming(c: Crypto, x: Party, y: Party, t: Script, u: Script, e: Endpoint, m: Message, peer: Stage, cy: bool)
    requires Setting(c, x, y, t, u) && Sent(t, u, !NonDh(x.Ka()), peer, cy, m)
    requires AtStage(x, y, t, u, e) && e.state == ResponderSendingConfirm1
    ensures Proper(x, y, t, u, e, OnResponderSendingConfirm1(c, e, m), peer, cy)
  {
    if m.Confirm2? {
      ResponderConfirmingReceivesConfirm2(c, x, y, t, u, e, peer, cy);
    } else {
      ResponderConfirmingReceivesOther(c, x, y, t, u, e, m, peer, cy);
    }
  }

  lemma ReceivesInitiatorConfirming(c: Crypto, x: Party, y: Party, t: Script, u: Script, e: Endpoint, m: Message, peer: Stage, cy: bool)
    requires Setting(c, x, y, t, u) && Sent(t, u, !NonDh(x.Ka()), peer, cy, m)
    requires AtStage(x, y, t, u, e) && e.state == InitiatorSendingConfirm2
    ensures Proper(x, y, t, u, e, OnInitiatorSendingConfirm2(c, e, m), peer, cy)
  {
    SecretsMatch(c, x, y, t);
    InitiatorSecures(c, x, y, t, e);
    AtInitiatorConfirming(c, x, y, t, u, e, m);
    InitiatorConfirmingProper(x, y, t, u, e, m, OnInitiatorSendingConfirm2(c, e, m), peer, cy);
  }

  lemma ReceivesSecure(c: Crypto, x: Party, y: Party, t: Script, u: Script, e: Endpoint, m: Message, peer: Stage, cy: bool)
    requires Typed(t) && Typed(u) && Sent(t, u, !NonDh(x.Ka()), peer, cy, m)
    requires AtStage(x, y, t, u, e) && e.state == Secure
    ensures Proper(x, y, t, u, e, OnSecure(c, e, m), peer, cy)
  {
    AtSecure(c, x, y, t, u, e, m);
    IdleIsProper(x, y, t, u, e, OnSecure(c, e, m), if e.role == Responder then Some(Conf2Ack) else None, peer, cy);
  }

  /** Whatever message of the peer reaches an end at whatever stage, what happens
      is a proper step. */
  lemma ReceivesProperly(c: Crypto, x: Party, y: Party, t: Script, u: Script, e: Endpoint, m: Message, peer: Stage, cy: bool)
    requires Setting(c, x, y, t, u) && Sent(t, u, !NonDh(x.Ka()), peer, cy, m) && AtStage(x, y, t, u, e)
    ensures Proper(x, y, t, u, e, Receive(c, e, m), peer, cy)
  {
    match e.state
    case DiscoveryInit => ReceivesDiscovering(c, x, y, t, u, e, m, peer, cy);
    case WaitingForHello => ReceivesHelloAcked(c, x, y, t, u, e, m, peer, cy);
    case WaitingForHelloAck => ReceivesGreeted(c, x, y, t, u, e, m, peer, cy);
    case SendingCommit => ReceivesCommitting(c, x, y, t, u, e, m, peer, cy);
    case ResponderSendingDhPart1 => ReceivesResponding(c, x, y, t, u, e, m, peer, cy);
    case InitiatorSendingDhPart2 => ReceivesInitiating(c, x, y, t, u, e, m, peer, cy);
    case ResponderSendingConfirm1 => ReceivesResponderConfirming(c, x, y, t, u, e, m, peer, cy);
    case InitiatorSendingConfirm2 => ReceivesInitiatorConfirming(c, x, y, t, u, e, m, peer, cy);
    case Secure => ReceivesSecure(c, x, y, t, u, e, m, peer, cy);
  }

  // A packet sent again is one the stage may send; a Commit only while
  // committing.
  lemma RepeatIsProper(x: Party, y: Party, t: Script, u: Script, e: Endpoint, packet: Message, peer: Stage, cy: bool)
    requires Typed(t) && Typed(u) && AtStage(x, y, t, u, e) && MaySend(t, u, !NonDh(x.Ka()), StageOf(e), packet)
    requires packet == t.commit ==> e.state == SendingCommit
    ensures Proper(x, y, t, u, e, Outcome(e, [packet], Done), peer, cy)
  {
  }

  /** A timer event only repeats what the stage sends. */
  lemma TicksProperly(c: Crypto, x: Party, y: Party, t: Script, u: Script, e: Endpoint, peer: Stage, cy: bool)
    requires t.initiatorHello == SelfHello(c, x.cfg) && Typed(t) && Typed(u) && AtStage(x, y, t, u, e)
    ensures Proper(x, y, t, u, e, Tick(c, e), peer, cy)
  {
    match e.state
    case DiscoveryInit => RepeatIsProper(x, y, t, u, e, t.initiatorHello, peer, cy);
    case WaitingForHelloAck => RepeatIsProper(x, y, t, u, e, t.initiatorHello, peer, cy);
    case SendingCommit => RepeatIsProper(x, y, t, u, e, t.commit, peer, cy);
    case InitiatorSendingDhPart2 => RepeatIsProper(x, y, t, u, e, t.dhPart2, peer, cy);
    case InitiatorSendingConfirm2 => RepeatIsProper(x, y, t, u, e, t.confirm2, peer, cy);
    case _ => IdleIsProper(x, y, t, u, e, Tick(c, e), None, peer, cy);
  }
}
