/** A first channel on which both ends prefer the multistream mode: there is no
    session key to derive from. */
module FirstChannels {
  import opened Octets
  import opened Negotiation
  import opened Agreement
  import opened Messages
  import opened Protocol
  import opened Exchange
  import opened Transitions
  import opened TwoEnds
  import opened TimedEnds
  import opened InOrder
  import opened Progress
  import opened SafeRuns
  import opened TimedRuns
  import Timer

  // ---------------------------------------------------------------------
  // When it happens

  predicate PrefersMult(x: AlgoLists, y: AlgoLists) {
    Common(x.keyAgreement, y.keyAgreement) != [] && Common(x.keyAgreement, y.keyAgreement)[0] == KEYAGREEMENT_MULT
  }

  /** The multistream mode is the first of both lists that the other end has. */
  predicate BothPreferMult(x: AlgoLists, y: AlgoLists) {
    PrefersMult(x, y) && PrefersMult(y, x)
  }

  lemma MultIsAgreedIff(x: Config, y: Config)
    requires Configured(x.lists) && Configured(y.lists) && !MultiStream(x)
    ensures PartyOf(x, y).Ka() == KEYAGREEMENT_MULT <==> BothPreferMult(x.lists, y.lists)
  {
    ReceivedAsSent(y.lists);
    MultAgreedOnlyIfBothPreferIt(x.lists, y.lists, UNSET_ALGOS);
  }

  // ---------------------------------------------------------------------
  // What happens, message by message

  /** An end that agreed on the multistream mode with the peer without a session
      key. */
  predicate MultGreeted(c: Crypto, self: Config, peer: Config, e: Endpoint) {
    && e.cfg == self && e.state == WaitingForHelloAck && e.peerHello == Some(SelfHello(c, peer))
    && e.algos.keyAgreement == KEYAGREEMENT_MULT && e.zrtpSess == None
    && e.selfCommit == None && e.selfDhPart == None && e.selfConfirm == None
  }

  function MultCommit(c: Crypto, self: Config, algos: Algos): Message {
    CommitPacket(c, self, algos, [], [], self.randoms.commitNonce)
  }

  lemma MultGreets(c: Crypto, x: Config, y: Config)
    requires Configured(x.lists) && Configured(y.lists) && x.zrtpSess == None && PartyOf(x, y).Ka() == KEYAGREEMENT_MULT
    ensures var o := OnDiscoveryInit(c, Start(x), SelfHello(c, y));
            o.ret == Done && o.sent == [HelloAck] && MultGreeted(c, x, y, o.next)
  {
    PartySelects(x, y);
    var algos := Agree(x.lists, Received(y.lists), UNSET_ALGOS).1;
    var o := GreetPeer(c, Start(x).(algos := algos), SelfHello(c, y), Received(y.lists));
    assert ResponseToHello(c, Start(x), SelfHello(c, y)) == o;
  }

  lemma MultCommits(c: Crypto, x: Config, y: Config, e: Endpoint)
    requires MultGreeted(c, x, y, e)
    ensures var o := OnWaitingForHelloAck(c, e, HelloAck);
            && o.ret == Done && o.sent == [MultCommit(c, x, e.algos)] && o.next.state == SendingCommit
            && o.next.selfCommit == Some(MultCommit(c, x, e.algos))
  {
  }

  /** A responder left where it should resend the Confirm1 it never built. */
  predicate WithoutConfirm1(e: Endpoint, commit: Message) {
    && e.state == ResponderSendingConfirm1 && e.peerCommit == Some(commit) && e.selfConfirm == None
    && e.algos.keyAgreement == KEYAGREEMENT_MULT
  }

  lemma MultCommitIsValid(c: Crypto, x: Config, y: Config, algos: Algos, e: Endpoint)
    requires MultGreeted(c, y, x, e) && algos.keyAgreement == KEYAGREEMENT_MULT && |x.randoms.commitNonce| == 16
    ensures ParseCommit(c, e, MultCommit(c, x, algos).body.commit) == 0
  {
  }

  lemma MultCommitIsRefused(c: Crypto, x: Config, y: Config, algos: Algos, e: Endpoint)
    requires MultGreeted(c, y, x, e) && algos.keyAgreement == KEYAGREEMENT_MULT && |x.randoms.commitNonce| == 16
    ensures var o := OnWaitingForHelloAck(c, e, MultCommit(c, x, algos));
            o.ret == Refused(ERROR_INVALIDCONTEXT) && o.sent == [] && WithoutConfirm1(o.next, MultCommit(c, x, algos))
  {
    MultCommitIsValid(c, x, y, algos, e);
    var m := MultCommit(c, x, algos);
    assert OnWaitingForHelloAck(c, e, m) == TurnIntoResponder(c, e, m);
  }

  lemma RepeatedMultCommitFaults(c: Crypto, e: Endpoint, commit: Message)
    requires WithoutConfirm1(e, commit) && IsCommit(Some(commit))
    ensures OnResponderSendingConfirm1(c, e, commit).ret == Fault
  {
  }

  // ---------------------------------------------------------------------
  // The run

  ghost predicate MultEnds(x: Config, y: Config) {
    && Configured(x.lists) && Configured(y.lists) && x.zrtpSess == None && y.zrtpSess == None
    && PartyOf(x, y).Ka() == KEYAGREEMENT_MULT && PartyOf(y, x).Ka() == KEYAGREEMENT_MULT
    && |x.randoms.commitNonce| == 16
  }

  lemma MultHellosCross(c: Crypto, x: Config, y: Config) returns (s: Timed)
    ensures s == AfterSteps(c, TimedBeginning(x, y), [IterateX(0), IterateY(0)])
    ensures s.g == Global(Start(x), Start(y), [SelfHello(c, x)], [SelfHello(c, y)]) && s.x.taken == 0 && s.y.taken == 0
    ensures s.x.clock == 0
  {
    var s0 := TimedBeginning(x, y);
    FirstHello(c, s0);
    var s1 := Proceed(c, s0, IterateX(0)).0;
    FirstHelloOfY(c, s1);
    TwoSteps(c, s0, IterateX(0), IterateY(0));
    s := Proceed(c, s1, IterateY(0)).0;
  }

  lemma MultHelloReachesX(c: Crypto, x: Config, y: Config, s: Timed) returns (h: Timed)
    requires MultEnds(x, y) && s.x.taken == 0 && s.y.taken == 0 && s.x.clock == 0
    requires s.g == Global(Start(x), Start(y), [SelfHello(c, x)], [SelfHello(c, y)])
    ensures h == Proceed(c, s, PacketToX(0)).0
    ensures MultGreeted(c, x, y, h.g.x) && h.g.y == Start(y) && h.x.taken == 1 && h.y.taken == 0 && h.x.clock == 0
    ensures h.g.sentX == [SelfHello(c, x), HelloAck] && h.g.sentY == [SelfHello(c, y)]
  {
    MultGreets(c, x, y);
    Dispatch(c, Start(x), SelfHello(c, y));
    h := Proceed(c, s, PacketToX(0)).0;
  }

  lemma MultHelloReachesY(c: Crypto, x: Config, y: Config, s: Timed) returns (h: Timed)
    requires MultEnds(x, y) && s.g.y == Start(y) && s.y.taken == 0
    requires s.g.sentX == [SelfHello(c, x), HelloAck] && s.g.sentY == [SelfHello(c, y)]
    ensures h == Proceed(c, s, PacketToY(0)).0
    ensures h.g.x == s.g.x && MultGreeted(c, y, x, h.g.y) && h.x == s.x && h.y.taken == 1
    ensures h.g.sentX == s.g.sentX && h.g.sentY == [SelfHello(c, y), HelloAck]
  {
    MultGreets(c, y, x);
    Dispatch(c, Start(y), SelfHello(c, x));
    h := Proceed(c, s, PacketToY(0)).0;
  }

  lemma MultHellosAreTaken(c: Crypto, x: Config, y: Config, s: Timed) returns (h: Timed)
    requires MultEnds(x, y) && s.x.taken == 0 && s.y.taken == 0 && s.x.clock == 0
    requires s.g == Global(Start(x), Start(y), [SelfHello(c, x)], [SelfHello(c, y)])
    ensures h == AfterSteps(c, s, [PacketToX(0), PacketToY(0)])
    ensures MultGreeted(c, x, y, h.g.x) && MultGreeted(c, y, x, h.g.y) && h.x.taken == 1 && h.y.taken == 1 && h.x.clock == 0
    ensures h.g.sentX == [SelfHello(c, x), HelloAck] && h.g.sentY == [SelfHello(c, y), HelloAck]
  {
    var between := MultHelloReachesX(c, x, y, s);
    h := MultHelloReachesY(c, x, y, between);
    TwoSteps(c, s, PacketToX(0), PacketToY(0));
  }

  // x commits on the HelloACK of y.
  lemma MultIsCommitted(c: Crypto, x: Config, y: Config, s: Timed) returns (h: Timed, commit: Message)
    requires MultGreeted(c, x, y, s.g.x) && s.x.taken == 1 && s.x.clock == 0 && s.g.sentY == [SelfHello(c, y), HelloAck]
    requires s.g.sentX == [SelfHello(c, x), HelloAck]
    ensures h == Proceed(c, s, PacketToX(1)).0 && commit == MultCommit(c, x, s.g.x.algos)
    ensures h.g.x.state == SendingCommit && h.g.x.selfCommit == Some(commit) && h.g.y == s.g.y && h.y == s.y
    ensures h.g.sentX == [SelfHello(c, x), HelloAck, commit]
    ensures h.x.clock == 0 && h.x.timer == Timer.Armed(Timer.SendingOther, 0)
  {
    MultCommits(c, x, y, s.g.x);
    Dispatch(c, s.g.x, HelloAck);
    h, commit := Proceed(c, s, PacketToX(1)).0, MultCommit(c, x, s.g.x.algos);
  }

  // y refuses the Commit and stays without a Confirm1.
  lemma MultIsRefused(c: Crypto, x: Config, y: Config, algos: Algos, s: Timed) returns (h: Timed, commit: Message)
    requires MultGreeted(c, y, x, s.g.y) && s.y.taken == 1 && algos.keyAgreement == KEYAGREEMENT_MULT && |x.randoms.commitNonce| == 16
    requires s.g.sentX == [SelfHello(c, x), HelloAck, MultCommit(c, x, algos)]
    ensures h == Proceed(c, s, PacketToY(2)).0 && commit == MultCommit(c, x, algos)
    ensures WithoutConfirm1(h.g.y, commit) && h.y.taken == 3 && h.g.x == s.g.x && h.x == s.x && h.g.sentX == s.g.sentX
  {
    commit := MultCommit(c, x, algos);
    MultCommitIsRefused(c, x, y, algos, s.g.y);
    Dispatch(c, s.g.y, commit);
    h := Proceed(c, s, PacketToY(2)).0;
  }

  // x repeats its Commit.
  lemma MultIsRepeated(c: Crypto, s: Timed, commit: Message) returns (h: Timed)
    requires s.g.x.state == SendingCommit && s.g.x.selfCommit == Some(commit)
    requires s.x.clock == 0 && s.x.timer == Timer.Armed(Timer.SendingOther, 0)
    ensures h == Proceed(c, s, IterateX(150)).0 && h.g.y == s.g.y && h.y == s.y && h.g.sentX == s.g.sentX + [commit]
  {
    h := Proceed(c, s, IterateX(150)).0;
  }

  lemma MultIsFollowed(c: Crypto, s: Timed, commit: Message)
    requires WithoutConfirm1(s.g.y, commit) && IsCommit(Some(commit)) && s.y.taken == 3 && |s.g.sentX| == 4 && s.g.sentX[3] == commit
    ensures Proceed(c, s, PacketToY(3)).1 == Fault
  {
    RepeatedMultCommitFaults(c, s.g.y, commit);
    Dispatch(c, s.g.y, commit);
  }

  lemma CommitsFault(c: Crypto, x: Config, y: Config, s: Timed)
    requires MultEnds(x, y) && MultGreeted(c, x, y, s.g.x) && MultGreeted(c, y, x, s.g.y)
    requires s.x.taken == 1 && s.y.taken == 1 && s.x.clock == 0
    requires s.g.sentX == [SelfHello(c, x), HelloAck] && s.g.sentY == [SelfHello(c, y), HelloAck]
    ensures var h := AfterSteps(c, s, [PacketToX(1), PacketToY(2)] + [IterateX(150)]);
            Proceed(c, h, PacketToY(3)).1 == Fault
  {
    var s1, commit := MultIsCommitted(c, x, y, s);
    var s2, again := MultIsRefused(c, x, y, s.g.x.algos, s1);
    var s3 := MultIsRepeated(c, s2, commit);
    MultIsFollowed(c, s3, commit);
    TwoSteps(c, s, PacketToX(1), PacketToY(2));
    OneStepMore(c, s, [PacketToX(1), PacketToY(2)], IterateX(150));
  }

  /** Hellos and HelloACKs cross, one end commits, the other refuses, and the
      retransmission of the Commit makes it follow a NULL pointer. */
  lemma MultFaults(c: Crypto, x: Config, y: Config) returns (run: seq<Step>)
    requires MultEnds(x, y)
    ensures !FaultlessSteps(c, TimedBeginning(x, y), run)
  {
    var s0, first, second, third :=
      TimedBeginning(x, y), [IterateX(0), IterateY(0)], [PacketToX(0), PacketToY(0)], [PacketToX(1), PacketToY(2)] + [IterateX(150)];
    var s1 := MultHellosCross(c, x, y);
    var s2 := MultHellosAreTaken(c, x, y, s1);
    CommitsFault(c, x, y, s2);
    ThreeRuns(c, s0, first, second, third);
    OneStepMore(c, s0, first + second + third, PacketToY(3));
    run := first + second + third + [PacketToY(3)];
  }

  // ---------------------------------------------------------------------
  // Theorem

  lemma MultRunFaults(c: Crypto, x: Config, y: Config)
    requires MultEnds(x, y)
    ensures exists run :: !FaultlessSteps(c, TimedBeginning(x, y), run)
    ensures exists run :: !Faultless(c, Global(Start(x), Start(y), [], []), run)
  {
    var run := MultFaults(c, x, y);
    TimedRunsAreRuns(c, TimedBeginning(x, y), run);
  }

  lemma HonestRunsAreFaultless(c: Crypto, x: Config, y: Config)
    requires HonestEnds(c, x, y)
    ensures forall run :: Faultless(c, Global(Start(x), Start(y), [], []), run)
    ensures forall run :: FaultlessSteps(c, TimedBeginning(x, y), run)
  {
    forall run ensures Faultless(c, Global(Start(x), Start(y), [], []), run) {
      NeverTwoResponders(c, x, y, run);
    }
    forall run ensures FaultlessSteps(c, TimedBeginning(x, y), run) {
      TimedRunsAreRuns(c, TimedBeginning(x, y), run);
    }
  }

  /** Two configured ends on a first channel: no run, whatever the network does,
      makes a state function follow a NULL pointer if and only if the multistream
      mode is not what both prefer. Timers that give up and packets dropped out of
      order do not change it. */
  lemma FirstChannelsAreFaultlessIff(c: Crypto, x: Config, y: Config)
    requires PrimitivesWork(c) && ConfiguredEnd(x) && ConfiguredEnd(y) && x.zrtpSess == None && y.zrtpSess == None
    requires var i, r := PartyOf(x, y), PartyOf(y, x);
             IdsTellApart(i, r, IdsOf(c, i, r), IdsOf(c, r, i)) && IdsTellApart(r, i, IdsOf(c, r, i), IdsOf(c, i, r))
    ensures (forall run :: Faultless(c, Global(Start(x), Start(y), [], []), run)) <==> !BothPreferMult(x.lists, y.lists)
    ensures (forall run :: FaultlessSteps(c, TimedBeginning(x, y), run)) <==> !BothPreferMult(x.lists, y.lists)
  {
    MultIsAgreedIff(x, y);
    if BothPreferMult(x.lists, y.lists) {
      PartySelects(x, y);
      MultRunFaults(c, x, y);
    } else {
      HonestRunsAreFaultless(c, x, y);
    }
  }
}
