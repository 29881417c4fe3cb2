/** What becomes of two honest ends when retransmissions end and packets out of
    order are dropped, stated on their configurations. */
module TimedRuns {
  import opened Octets
  import opened Negotiation
  import opened Agreement
  import opened Messages
  import opened Protocol
  import opened Exchange
  import opened Transitions
  import opened Runs
  import opened TwoEnds
  import opened TimedEnds
  import opened InOrder
  import opened Progress
  import opened SafeRuns
  import Timer

  /** The state after some steps of two channels just started. */
  function TimedReached(c: Crypto, x: Config, y: Config, run: seq<Step>): Timed {
    AfterSteps(c, TimedBeginning(x, y), run)
  }

  lemma TimedReachedIsSane(c: Crypto, x: Config, y: Config, run: seq<Step>) returns (t: Script, u: Script)
    requires HonestEnds(c, x, y)
    ensures Setting(c, PartyOf(x, y), PartyOf(y, x), t, u)
    ensures t == ScriptOf(c, PartyOf(x, y), PartyOf(y, x)) && u == ScriptOf(c, PartyOf(y, x), PartyOf(x, y))
    ensures Sane(PartyOf(x, y), PartyOf(y, x), t, u, TimedReached(c, x, y, run))
  {
    t, u := HonestSetting(c, x, y);
    BeginningIsSane(PartyOf(x, y), PartyOf(y, x), t, u);
    StepsKeepOrder(c, PartyOf(x, y), PartyOf(y, x), t, u, TimedBeginning(x, y), run);
  }

  // ---------------------------------------------------------------------
  // Dead ends

  /** Both ends send Commits whose hvi or nonce are equal. */
  predicate SendEqualCommits(g: Global) {
    && g.x.state == SendingCommit && g.y.state == SendingCommit
    && IsCommit(g.x.selfCommit) && IsCommit(g.y.selfCommit)
    && ContentionValue(g.x.selfCommit.value.body.commit) == ContentionValue(g.y.selfCommit.value.body.commit)
  }

  lemma UndecidedMeansEqualCommits(c: Crypto, x: Party, y: Party, t: Script, u: Script, g: Global)
    requires Setting(c, x, y, t, u) && Invariant(x, y, t, u, g)
    ensures Undecided(t, u, g) <==> SendEqualCommits(g)
  {
    SettingGives(c, x, y, t, u);
    ContentionDecides(c, x, y, t, u);
    if g.x.state == SendingCommit && g.y.state == SendingCommit {
      CommittingEnds(x, y, t, u, g);
    }
  }

  lemma StagesOfSecureEnds(x: Party, y: Party, t: Script, u: Script, g: Global)
    requires x.Ka() == y.Ka() && Invariant(x, y, t, u, g)
    ensures BothSecure(StageOf(g.x), StageOf(g.y)) ==> g.x.isSecure && g.y.isSecure
    ensures g.x.state == SendingCommit || g.x.state == WaitingForHello ==> !g.x.isSecure
    ensures g.y.state == SendingCommit || g.y.state == WaitingForHello ==> !g.y.isSecure
  {
  }

  predicate BothEndsSecure(g: Global) {
    g.x.isSecure && g.y.isSecure
  }

  ghost predicate CanBeSecured(c: Crypto, x: Config, y: Config, run: seq<Step>) {
    exists more :: BothEndsSecure(TimedReached(c, x, y, run + more).g)
  }

  lemma RunsCanBeSecured(c: Crypto, x: Config, y: Config, run: seq<Step>)
    requires HonestEnds(c, x, y)
    requires !SendEqualCommits(TimedReached(c, x, y, run).g) && !EitherHelloOvertaken(TimedReached(c, x, y, run))
    ensures CanBeSecured(c, x, y, run)
  {
    var i, r, s := PartyOf(x, y), PartyOf(y, x), TimedReached(c, x, y, run);
    var t, u := TimedReachedIsSane(c, x, y, run);
    SettingGives(c, i, r, t, u);
    UndecidedMeansEqualCommits(c, i, r, t, u, s.g);
    var more := SecurityIsReachable(c, i, r, t, u, s);
    StepsAdd(c, TimedBeginning(x, y), run, more);
    StepsKeepOrder(c, i, r, t, u, s, more);
    StagesOfSecureEnds(i, r, t, u, AfterSteps(c, s, more).g);
    assert BothEndsSecure(TimedReached(c, x, y, run + more).g);
  }

  lemma EqualCommitsNeverSecure(c: Crypto, x: Config, y: Config, run: seq<Step>, more: seq<Step>)
    requires HonestEnds(c, x, y) && SendEqualCommits(TimedReached(c, x, y, run).g)
    ensures !BothEndsSecure(TimedReached(c, x, y, run + more).g)
  {
    var i, r, s := PartyOf(x, y), PartyOf(y, x), TimedReached(c, x, y, run);
    var t, u := TimedReachedIsSane(c, x, y, run);
    SettingGives(c, i, r, t, u);
    UndecidedMeansEqualCommits(c, i, r, t, u, s.g);
    UndecidedIsForever(c, i, r, t, u, s.g, RunOf(c, s, more));
    TimedRunsAreRuns(c, s, more);
    StepsAdd(c, TimedBeginning(x, y), run, more);
    StepsKeepOrder(c, i, r, t, u, s, more);
    StagesOfSecureEnds(i, r, t, u, AfterSteps(c, s, more).g);
  }

  lemma OvertakenNeverSecure(c: Crypto, x: Party, y: Party, t: Script, u: Script, s: Timed, more: seq<Step>)
    requires Setting(c, x, y, t, u) && Sane(x, y, t, u, s) && HelloOvertaken(s)
    ensures !AfterSteps(c, s, more).g.x.isSecure
  {
    SettingGives(c, x, y, t, u);
    OvertakenIsForever(c, x, y, t, u, s, more);
    StepsKeepOrder(c, x, y, t, u, s, more);
    StagesOfSecureEnds(x, y, t, u, AfterSteps(c, s, more).g);
  }

  lemma EitherOvertakenNeverSecure(c: Crypto, x: Party, y: Party, t: Script, u: Script, s: Timed, more: seq<Step>)
    requires Setting(c, x, y, t, u) && Setting(c, y, x, u, t) && x.Ka() == y.Ka()
    requires Sane(x, y, t, u, s) && EitherHelloOvertaken(s)
    ensures !BothEndsSecure(AfterSteps(c, s, more).g)
  {
    if HelloOvertaken(s) {
      OvertakenNeverSecure(c, x, y, t, u, s, more);
    } else {
      SaneMirrored(x, y, t, u, s);
      OvertakenNeverSecure(c, y, x, u, t, MirroredTimed(s), MirroredSteps(more));
      StepsMirrored(c, s, more);
    }
  }

  lemma OvertakenRunsNeverSecure(c: Crypto, x: Config, y: Config, run: seq<Step>, more: seq<Step>)
    requires HonestEnds(c, x, y) && EitherHelloOvertaken(TimedReached(c, x, y, run))
    ensures !BothEndsSecure(TimedReached(c, x, y, run + more).g)
  {
    var i, r, s := PartyOf(x, y), PartyOf(y, x), TimedReached(c, x, y, run);
    var t, u := TimedReachedIsSane(c, x, y, run);
    SettingGives(c, i, r, t, u);
    SettingMirrored(c, i, r, t, u);
    EitherOvertakenNeverSecure(c, i, r, t, u, s, more);
    StepsAdd(c, TimedBeginning(x, y), run, more);
  }

  /** There are two dead ends and no other. After any run, with timers that give up
      and packets out of order dropped, the two ends can still be taken to
      security, both of them, exactly when they are not sending Commits with equal
      hvi or nonces, and neither waits for a Hello that its peer, its timer off,
      has only sent before the HelloACK taken. */
  lemma SecurityIsReachableIff(c: Crypto, x: Config, y: Config, run: seq<Step>)
    requires HonestEnds(c, x, y)
    ensures var s := TimedReached(c, x, y, run);
            CanBeSecured(c, x, y, run) <==> !SendEqualCommits(s.g) && !EitherHelloOvertaken(s)
  {
    var s := TimedReached(c, x, y, run);
    if SendEqualCommits(s.g) {
      forall more ensures !BothEndsSecure(TimedReached(c, x, y, run + more).g) {
        EqualCommitsNeverSecure(c, x, y, run, more);
      }
    } else if EitherHelloOvertaken(s) {
      forall more ensures !BothEndsSecure(TimedReached(c, x, y, run + more).g) {
        OvertakenRunsNeverSecure(c, x, y, run, more);
      }
    } else {
      RunsCanBeSecured(c, x, y, run);
    }
  }

  // ---------------------------------------------------------------------
  // Both dead ends are met

  lemma FirstHello(c: Crypto, s: Timed)
    requires s.g.x.state == DiscoveryInit && s.x == JUST_STARTED
    ensures var h := Proceed(c, s, IterateX(0)).0;
            h.g == s.g.(sentX := s.g.sentX + [SelfHello(c, s.g.x.cfg)]) && h.x.taken == 0 && h.x.timer.on && h.x.timer.firingTime == 100
            && h.x.clock == 0 && h.y == s.y
  {
  }

  lemma FirstHelloOfY(c: Crypto, s: Timed)
    requires s.g.y.state == DiscoveryInit && s.y == JUST_STARTED
    ensures var h := Proceed(c, s, IterateY(0)).0;
            h.g == s.g.(sentY := s.g.sentY + [SelfHello(c, s.g.y.cfg)]) && h.y.taken == 0 && h.x == s.x
  {
  }

  // x, just started, is given the first packet of y, a Hello.
  lemma HelloTaken(c: Crypto, x: Party, y: Party, t: Script, s: Timed)
    requires OneMode(x, y) && Selects(x, y) && MessagesOf(c, x, y, t) && AllSigned(t)
    requires s.g.x == Start(x.cfg) && s.x.taken == 0 && s.g.sentY != [] && s.g.sentY[0] == t.responderHello
    ensures var h := Proceed(c, s, PacketToX(0)).0;
            && IsGreeted(x, y, t, h.g.x) && h.g.sentX == s.g.sentX + [HelloAck] && h.g.y == s.g.y && h.g.sentY == s.g.sentY
            && h.y == s.y && h.x == Side(1, s.x.clock, Timer.Armed(Timer.SendingHello, s.x.clock))
  {
    Dispatch(c, s.g.x, t.responderHello);
    OnHelloInDiscovery(c, x, y, t, s.g.x);
  }

  lemma HelloTakenByY(c: Crypto, x: Party, y: Party, u: Script, s: Timed)
    requires OneMode(y, x) && Selects(y, x) && MessagesOf(c, y, x, u) && AllSigned(u)
    requires s.g.y == Start(y.cfg) && s.y.taken == 0 && s.g.sentX != [] && s.g.sentX[0] == u.responderHello
    ensures var h := Proceed(c, s, PacketToY(0)).0;
            && IsGreeted(y, x, u, h.g.y) && h.g.sentY == s.g.sentY + [HelloAck] && h.g.x == s.g.x && h.g.sentX == s.g.sentX
            && h.x == s.x && h.y == Side(1, s.y.clock, Timer.Armed(Timer.SendingHello, s.y.clock))
  {
    HelloTaken(c, y, x, u, MirroredTimed(s));
    StepMirrored(c, s, PacketToY(0));
  }

  lemma HelloAckTaken(c: Crypto, x: Party, y: Party, t: Script, s: Timed, k: nat)
    requires OneMode(x, y) && AllSigned(t) && t.commit == CommitFrom(c, x, t.dhPart2, t.responderHello)
    requires IsGreeted(x, y, t, s.g.x) && s.x.taken <= k < |s.g.sentY| && s.g.sentY[k] == HelloAck
    ensures var h := Proceed(c, s, PacketToX(k)).0;
            && IsCommitting(x, y, t, h.g.x) && h.g.sentX == s.g.sentX + [t.commit] && h.g.y == s.g.y && h.g.sentY == s.g.sentY
            && h.y == s.y && h.x == Side(k + 1, s.x.clock, Timer.Armed(Timer.SendingOther, s.x.clock))
  {
    Dispatch(c, s.g.x, HelloAck);
    OnHelloAckWhenGreeted(c, x, y, t, s.g.x);
  }

  lemma HelloAckTakenByY(c: Crypto, x: Party, y: Party, u: Script, s: Timed, k: nat)
    requires OneMode(y, x) && AllSigned(u) && u.commit == CommitFrom(c, y, u.dhPart2, u.responderHello)
    requires IsGreeted(y, x, u, s.g.y) && s.y.taken <= k < |s.g.sentX| && s.g.sentX[k] == HelloAck
    ensures var h := Proceed(c, s, PacketToY(k)).0;
            IsCommitting(y, x, u, h.g.y) && h.g.sentY == s.g.sentY + [u.commit] && h.g.x == s.g.x && h.g.sentX == s.g.sentX
  {
    HelloAckTaken(c, y, x, u, MirroredTimed(s), k);
    StepMirrored(c, s, PacketToY(k));
  }

  // What the opening asks of the setting.
  ghost predicate Opens(c: Crypto, x: Party, y: Party, t: Script) {
    && OneMode(x, y) && Selects(x, y) && MessagesOf(c, x, y, t) && AllSigned(t)
  }

  lemma SettingOpens(c: Crypto, x: Party, y: Party, t: Script, u: Script)
    requires Setting(c, x, y, t, u)
    ensures Opens(c, x, y, t) && Opens(c, y, x, u)
  {
  }

  /** Both ends send a Hello, take the other's and its HelloACK. */
  const OPENING := [IterateX(0), IterateY(0)] + [PacketToX(0), PacketToY(0)] + [PacketToX(1), PacketToY(1)]

  lemma ThreeRuns(c: Crypto, s: Timed, first: seq<Step>, second: seq<Step>, third: seq<Step>)
    ensures AfterSteps(c, s, first + second + third) == AfterSteps(c, AfterSteps(c, AfterSteps(c, s, first), second), third)
  {
    StepsAdd(c, s, first, second);
    StepsAdd(c, s, first + second, third);
  }

  lemma HellosCross(c: Crypto, x: Party, y: Party, t: Script, u: Script) returns (s: Timed)
    requires Opens(c, x, y, t) && Opens(c, y, x, u)
    ensures s == AfterSteps(c, TimedBeginning(x.cfg, y.cfg), [IterateX(0), IterateY(0)])
    ensures s.g == Global(Start(x.cfg), Start(y.cfg), [u.responderHello], [t.responderHello]) && s.x.taken == 0 && s.y.taken == 0
  {
    var s0 := TimedBeginning(x.cfg, y.cfg);
    FirstHello(c, s0);
    var s1 := Proceed(c, s0, IterateX(0)).0;
    FirstHelloOfY(c, s1);
    TwoSteps(c, s0, IterateX(0), IterateY(0));
    s := Proceed(c, s1, IterateY(0)).0;
  }

  lemma FirstHelloIsTaken(c: Crypto, x: Party, y: Party, t: Script, u: Script, s: Timed) returns (h: Timed)
    requires Opens(c, x, y, t)
    requires s.g == Global(Start(x.cfg), Start(y.cfg), [u.responderHello], [t.responderHello]) && s.x.taken == 0 && s.y.taken == 0
    ensures h == Proceed(c, s, PacketToX(0)).0
    ensures IsGreeted(x, y, t, h.g.x) && h.g.y == Start(y.cfg) && h.x.taken == 1 && h.y.taken == 0
    ensures h.g.sentX == [u.responderHello, HelloAck] && h.g.sentY == [t.responderHello]
  {
    HelloTaken(c, x, y, t, s);
    h := Proceed(c, s, PacketToX(0)).0;
  }

  lemma SecondHelloIsTaken(c: Crypto, x: Party, y: Party, t: Script, u: Script, s: Timed) returns (h: Timed)
    requires Opens(c, y, x, u)
    requires s.g.y == Start(y.cfg) && s.y.taken == 0 && s.g.sentX == [u.responderHello, HelloAck] && s.g.sentY == [t.responderHello]
    ensures h == Proceed(c, s, PacketToY(0)).0
    ensures h.g.x == s.g.x && IsGreeted(y, x, u, h.g.y) && h.x == s.x && h.y.taken == 1
    ensures h.g.sentX == s.g.sentX && h.g.sentY == [t.responderHello, HelloAck]
  {
    HelloTakenByY(c, x, y, u, s);
    h := Proceed(c, s, PacketToY(0)).0;
  }

  lemma HellosAreTaken(c: Crypto, x: Party, y: Party, t: Script, u: Script, s: Timed) returns (h: Timed)
    requires Opens(c, x, y, t) && Opens(c, y, x, u)
    requires s.g == Global(Start(x.cfg), Start(y.cfg), [u.responderHello], [t.responderHello]) && s.x.taken == 0 && s.y.taken == 0
    ensures h == AfterSteps(c, s, [PacketToX(0), PacketToY(0)])
    ensures IsGreeted(x, y, t, h.g.x) && IsGreeted(y, x, u, h.g.y) && h.x.taken == 1 && h.y.taken == 1
    ensures h.g.sentX == [u.responderHello, HelloAck] && h.g.sentY == [t.responderHello, HelloAck]
  {
    var between := FirstHelloIsTaken(c, x, y, t, u, s);
    h := SecondHelloIsTaken(c, x, y, t, u, between);
    TwoSteps(c, s, PacketToX(0), PacketToY(0));
  }

  lemma HelloAcksAreTaken(c: Crypto, x: Party, y: Party, t: Script, u: Script, s: Timed) returns (h: Timed)
    requires Opens(c, x, y, t) && Opens(c, y, x, u)
    requires IsGreeted(x, y, t, s.g.x) && IsGreeted(y, x, u, s.g.y) && s.x.taken == 1 && s.y.taken == 1
    requires s.g.sentX == [u.responderHello, HelloAck] && s.g.sentY == [t.responderHello, HelloAck]
    ensures h == AfterSteps(c, s, [PacketToX(1), PacketToY(1)])
    ensures IsCommitting(x, y, t, h.g.x) && IsCommitting(y, x, u, h.g.y)
  {
    HelloAckTaken(c, x, y, t, s, 1);
    var s1 := Proceed(c, s, PacketToX(1)).0;
    HelloAckTakenByY(c, x, y, u, s1, 1);
    TwoSteps(c, s, PacketToX(1), PacketToY(1));
    h := Proceed(c, s1, PacketToY(1)).0;
  }

  /** Any two honest ends can come to send Commits both. */
  lemma OpeningCommits(c: Crypto, x: Party, y: Party, t: Script, u: Script)
    requires Opens(c, x, y, t) && Opens(c, y, x, u)
    ensures var h := AfterSteps(c, TimedBeginning(x.cfg, y.cfg), OPENING);
            IsCommitting(x, y, t, h.g.x) && IsCommitting(y, x, u, h.g.y)
  {
    var s0 := TimedBeginning(x.cfg, y.cfg);
    var s1 := HellosCross(c, x, y, t, u);
    var s2 := HellosAreTaken(c, x, y, t, u, s1);
    var s3 := HelloAcksAreTaken(c, x, y, t, u, s2);
    ThreeRuns(c, s0, [IterateX(0), IterateY(0)], [PacketToX(0), PacketToY(0)], [PacketToX(1), PacketToY(1)]);
  }

  predicate EqualValues(a: Message, b: Message)
    requires IsCommit(Some(a)) && IsCommit(Some(b))
  {
    ContentionValue(a.body.commit) == ContentionValue(b.body.commit)
  }

  ghost predicate CanSendEqualCommits(c: Crypto, x: Config, y: Config) {
    exists run :: SendEqualCommits(TimedReached(c, x, y, run).g)
  }

  lemma CommitsOfCommitting(x: Party, y: Party, t: Script, u: Script, g: Global)
    requires IsCommitting(x, y, t, g.x) && IsCommitting(y, x, u, g.y) && IsCommit(Some(t.commit)) && IsCommit(Some(u.commit))
    ensures SendEqualCommits(g) <==> EqualValues(t.commit, u.commit)
  {
  }

  lemma OnlyEqualValuesAreEqualCommits(c: Crypto, x: Config, y: Config, run: seq<Step>, t: Script, u: Script)
    requires HonestEnds(c, x, y) && SendEqualCommits(TimedReached(c, x, y, run).g)
    requires t == ScriptOf(c, PartyOf(x, y), PartyOf(y, x)) && u == ScriptOf(c, PartyOf(y, x), PartyOf(x, y))
    requires IsCommit(Some(t.commit)) && IsCommit(Some(u.commit))
    ensures EqualValues(t.commit, u.commit)
  {
    var g := TimedReached(c, x, y, run).g;
    var t', u' := TimedReachedIsSane(c, x, y, run);
    SettingGives(c, PartyOf(x, y), PartyOf(y, x), t', u');
    CommittingEnds(PartyOf(x, y), PartyOf(y, x), t', u', g);
    CommitsOfCommitting(PartyOf(x, y), PartyOf(y, x), t', u', g);
  }

  lemma EqualValuesMeet(c: Crypto, x: Config, y: Config, t: Script, u: Script)
    requires HonestEnds(c, x, y)
    requires t == ScriptOf(c, PartyOf(x, y), PartyOf(y, x)) && u == ScriptOf(c, PartyOf(y, x), PartyOf(x, y))
    requires IsCommit(Some(t.commit)) && IsCommit(Some(u.commit)) && EqualValues(t.commit, u.commit)
    ensures SendEqualCommits(TimedReached(c, x, y, OPENING).g)
  {
    var i, r := PartyOf(x, y), PartyOf(y, x);
    var t', u' := HonestSetting(c, x, y);
    SettingOpens(c, i, r, t', u');
    OpeningCommits(c, i, r, t', u');
    CommitsOfCommitting(i, r, t', u', TimedReached(c, x, y, OPENING).g);
  }

  /** The first dead end, before the call: some run has both ends send Commits of one
      value exactly when the Commits their configurations determine have one value;
      between multistream ends, when they drew one nonce. */
  lemma EqualCommitsIff(c: Crypto, x: Config, y: Config)
    requires HonestEnds(c, x, y)
    ensures CanSendEqualCommits(c, x, y) <==>
            EqualValues(ScriptOf(c, PartyOf(x, y), PartyOf(y, x)).commit, ScriptOf(c, PartyOf(y, x), PartyOf(x, y)).commit)
    ensures MultiStream(x) ==> (CanSendEqualCommits(c, x, y) <==> x.randoms.commitNonce == y.randoms.commitNonce)
  {
    var t, u := ScriptOf(c, PartyOf(x, y), PartyOf(y, x)), ScriptOf(c, PartyOf(y, x), PartyOf(x, y));
    if EqualValues(t.commit, u.commit) {
      EqualValuesMeet(c, x, y, t, u);
    }
    if CanSendEqualCommits(c, x, y) {
      var run :| SendEqualCommits(TimedReached(c, x, y, run).g);
      OnlyEqualValuesAreEqualCommits(c, x, y, run, t, u);
    }
    MultiStreamValues(c, x, y, t, u);
  }

  lemma MultiStreamValues(c: Crypto, x: Config, y: Config, t: Script, u: Script)
    requires MultiStream(x) == MultiStream(y)
    requires t == ScriptOf(c, PartyOf(x, y), PartyOf(y, x)) && u == ScriptOf(c, PartyOf(y, x), PartyOf(x, y))
    ensures MultiStream(x) ==> (EqualValues(t.commit, u.commit) <==> x.randoms.commitNonce == y.randoms.commitNonce)
  {
  }

  lemma OneCall(c: Crypto, s: Timed)
    requires s.g.y.state == WaitingForHelloAck && s.y.timer.on && Timer.Counting(Timer.Channel(Timer.SendingHello, s.y.timer))
    ensures var h := Proceed(c, s, IterateY(DueTime(s.y))).0;
            && h.g == s.g.(sentY := s.g.sentY + [SelfHello(c, s.g.y.cfg)]) && h.x == s.x && h.y.taken == s.y.taken
            && Timer.Counting(Timer.Channel(Timer.SendingHello, h.y.timer))
            && Timer.Left(Timer.Channel(Timer.SendingHello, h.y.timer)) < Timer.Left(Timer.Channel(Timer.SendingHello, s.y.timer))
  {
    Timer.OneEvent(Timer.Channel(Timer.SendingHello, s.y.timer), Timer.Passes(DueTime(s.y)));
  }

  /** y sends Hellos until its timer gives up, and none arrives. */
  lemma {:induction false} CallsUntilSilent(c: Crypto, s: Timed) returns (run: seq<Step>, h: Timed)
    requires s.g.y.state == WaitingForHelloAck && Timer.Counting(Timer.Channel(Timer.SendingHello, s.y.timer))
    ensures h == AfterSteps(c, s, run) && !h.y.timer.on
    ensures h.g == s.g.(sentY := h.g.sentY) && h.x == s.x && h.y.taken == s.y.taken
    decreases Timer.Left(Timer.Channel(Timer.SendingHello, s.y.timer))
  {
    if !s.y.timer.on {
      run, h := [], s;
    } else {
      var call := IterateY(DueTime(s.y));
      OneCall(c, s);
      OneStep(c, s, call);
      var rest;
      rest, h := CallsUntilSilent(c, Proceed(c, s, call).0);
      StepsAdd(c, s, [call], rest);
      run := [call] + rest;
    }
  }

  // A first Hello of x that y takes.
  lemma YGreeted(c: Crypto, x: Party, y: Party, t: Script, u: Script) returns (s: Timed)
    requires Opens(c, x, y, t) && Opens(c, y, x, u)
    ensures s == AfterSteps(c, TimedBeginning(x.cfg, y.cfg), [IterateX(0), PacketToY(0)])
    ensures s.g.x == Start(x.cfg) && IsGreeted(y, x, u, s.g.y) && s.g.sentX == [u.responderHello]
    ensures s.x.taken == 0 && s.x.timer.on && s.x.timer.firingTime == 100 && s.x.clock == 0
    ensures s.y == Side(1, 0, Timer.Armed(Timer.SendingHello, 0))
  {
    var s0 := TimedBeginning(x.cfg, y.cfg);
    FirstHello(c, s0);
    var s1 := Proceed(c, s0, IterateX(0)).0;
    HelloTakenByY(c, x, y, u, s1);
    TwoSteps(c, s0, IterateX(0), PacketToY(0));
    s := Proceed(c, s1, PacketToY(0)).0;
  }

  lemma SecondHello(c: Crypto, s: Timed)
    requires s.g.x.state == DiscoveryInit && s.x.timer.on && s.x.timer.firingTime == 100 && s.x.clock == 0
    ensures var h := Proceed(c, s, IterateX(100)).0;
            h.g == s.g.(sentX := s.g.sentX + [SelfHello(c, s.g.x.cfg)]) && h.x.taken == s.x.taken && h.y == s.y
  {
  }

  lemma HelloAnswered(c: Crypto, x: Party, y: Party, u: Script, s: Timed, k: nat)
    requires IsGreeted(y, x, u, s.g.y) && IsHello(Some(u.responderHello))
    requires s.y.taken <= k < |s.g.sentX| && s.g.sentX[k] == u.responderHello
    ensures var h := Proceed(c, s, PacketToY(k)).0;
            h.g == s.g.(sentY := s.g.sentY + [HelloAck]) && h.x == s.x && h.y.timer == s.y.timer
  {
    GreetedAnswers(c, y, x, u, s.g.y);
    Dispatch(c, s.g.y, u.responderHello);
  }

  lemma HelloAckOvertakes(c: Crypto, s: Timed, k: nat)
    requires s.g.x.state == DiscoveryInit && s.x.taken <= k && |s.g.sentY| == k + 1 && s.g.sentY[k] == HelloAck && !s.y.timer.on
    ensures HelloOvertaken(Proceed(c, s, PacketToX(k)).0)
  {
    Dispatch(c, s.g.x, HelloAck);
  }

  lemma SilentEndIsOvertaken(c: Crypto, x: Party, y: Party, u: Script, s: Timed) returns (run: seq<Step>)
    requires IsGreeted(y, x, u, s.g.y) && IsHello(Some(u.responderHello)) && u.responderHello == SelfHello(c, x.cfg)
    requires s.g.x == Start(x.cfg) && s.g.sentX == [u.responderHello] && s.y.taken == 1 && !s.y.timer.on
    requires s.x.taken == 0 && s.x.timer.on && s.x.timer.firingTime == 100 && s.x.clock == 0
    ensures HelloOvertaken(AfterSteps(c, s, run))
  {
    var s1, last := Proceed(c, s, IterateX(100)).0, PacketToX(|s.g.sentY|);
    SecondHello(c, s);
    var s2 := Proceed(c, s1, PacketToY(1)).0;
    HelloAnswered(c, x, y, u, s1, 1);
    HelloAckOvertakes(c, s2, |s.g.sentY|);
    TwoSteps(c, s, IterateX(100), PacketToY(1));
    OneStepMore(c, s, [IterateX(100), PacketToY(1)], last);
    run := [IterateX(100), PacketToY(1)] + [last];
  }

  /** The second dead end is met by any two honest ends: every Hello of one is lost
      until its timer gives up, and a HelloACK of it gets through. */
  lemma HelloCanBeOvertaken(c: Crypto, x: Config, y: Config) returns (run: seq<Step>)
    requires HonestEnds(c, x, y)
    ensures HelloOvertaken(TimedReached(c, x, y, run))
  {
    var i, r := PartyOf(x, y), PartyOf(y, x);
    var t, u := HonestSetting(c, x, y);
    SettingOpens(c, i, r, t, u);
    run := OvertakingRun(c, i, r, t, u);
  }

  lemma OvertakingRun(c: Crypto, x: Party, y: Party, t: Script, u: Script) returns (run: seq<Step>)
    requires Opens(c, x, y, t) && Opens(c, y, x, u)
    ensures HelloOvertaken(AfterSteps(c, TimedBeginning(x.cfg, y.cfg), run))
  {
    var s0, greeting := TimedBeginning(x.cfg, y.cfg), [IterateX(0), PacketToY(0)];
    var s1 := YGreeted(c, x, y, t, u);
    var calls, s2 := CallsUntilSilent(c, s1);
    var end := SilentEndIsOvertaken(c, x, y, u, s2);
    ThreeRuns(c, s0, greeting, calls, end);
    run := greeting + calls + end;
  }
}
