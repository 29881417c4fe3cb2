/** What every run of two honest ends guarantees, stated on their
    configurations. */
module SafeRuns {
  import opened Octets
  import opened Negotiation
  import opened Agreement
  import opened RetainedSecrets
  import opened Messages
  import opened Protocol
  import opened Exchange
  import opened Transitions
  import opened Runs
  import opened TwoEnds

  // ---------------------------------------------------------------------
  // Hypotheses

  /** The crypto libraries do their job. */
  ghost predicate PrimitivesWork(c: Crypto) {
    && (forall h, d {:trigger c.hash(h, d, 32)} :: |c.hash(h, d, 32)| == 32)
    && (forall a, p, q {:trigger c.dhShared(a, p, c.dhPublic(a, q))} ::
          IsDiffieHellman(a) ==> c.dhShared(a, p, c.dhPublic(a, q)) == c.dhShared(a, q, c.dhPublic(a, p)))
    && (forall a, p {:trigger c.dhPublic(a, p)} :: IsDiffieHellman(a) ==> |c.dhPublic(a, p)| == DhPublicLength(a))
    && (forall a, h, s {:trigger c.kemPublic(a, h, s)} :: IsKem(a) ==> |c.kemPublic(a, h, s)| == RoundToWord(c.kemPublicLength(a)))
    && (forall a, h, p, r {:trigger c.kemCipherText(a, h, p, r)} ::
          IsKem(a) ==> |c.kemCipherText(a, h, p, r)| == RoundToWord(c.kemCipherTextLength(a)) != 0)
    && (forall a, h, s, r {:trigger c.kemCipherText(a, h, c.kemPublic(a, h, s), r)} ::
          IsKem(a) ==> c.kemDecaps(a, h, s, c.kemCipherText(a, h, c.kemPublic(a, h, s), r)) == c.kemSecret(a, h, c.kemPublic(a, h, s), r))
    && ConfirmsOpen(c)
  }

  /** An end as bzrtp configures it. */
  ghost predicate ConfiguredEnd(cfg: Config) {
    && |cfg.h0| == H0_LENGTH && Configured(cfg.lists) && WellFormed(cfg.retained)
    && |cfg.randoms.commitNonce| == 16 && |cfg.randoms.kemNonce| == KEMPART2_NONCE_SIZE
  }

  function PartyOf(x: Config, y: Config): Party {
    var algos := Agree(x.lists, Received(y.lists), UNSET_ALGOS).1;
    Party(x, if MultiStream(x) then algos.(keyAgreement := KEYAGREEMENT_MULT) else algos)
  }

  /** Two honest ends, the identifiers of whose secrets do not collide: both use a
      secondary channel with one session key, or both a first channel whose Hellos
      do not agree on the multistream mode. */
  ghost predicate HonestEnds(c: Crypto, x: Config, y: Config) {
    && PrimitivesWork(c) && ConfiguredEnd(x) && ConfiguredEnd(y)
    && MultiStream(x) == MultiStream(y)
    && (MultiStream(x) ==> x.zrtpSess == y.zrtpSess)
    && (!MultiStream(x) ==> PartyOf(x, y).Ka() != KEYAGREEMENT_MULT)
    && var i, r := PartyOf(x, y), PartyOf(y, x);
       && IdsTellApart(i, r, IdsOf(c, i, r), IdsOf(c, r, i)) && IdsTellApart(r, i, IdsOf(c, r, i), IdsOf(c, i, r))
  }

  lemma PartySelects(x: Config, y: Config)
    requires Configured(x.lists) && Configured(y.lists)
    ensures Selects(PartyOf(x, y), PartyOf(y, x))
    ensures Implemented(KeyAgreement, PartyOf(x, y).Ka())
    ensures !MultiStream(x) && !MultiStream(y) ==> PartyOf(x, y).Ka() == PartyOf(y, x).Ka()
  {
    ReceivedAsSent(x.lists);
    ReceivedAsSent(y.lists);
    ConfiguredAgree(x.lists, y.lists, UNSET_ALGOS);
    ConfiguredShare(KeyAgreement, x.lists, y.lists);
    KeyAgreementSymmetric(x.lists, y.lists, UNSET_ALGOS, UNSET_ALGOS);
  }

  lemma EndsInOneMode(c: Crypto, x: Config, y: Config)
    requires HonestEnds(c, x, y)
    ensures OneMode(PartyOf(x, y), PartyOf(y, x))
  {
    PartySelects(x, y);
  }

  lemma ValuesHaveTheirLengths(c: Crypto, i: Party, r: Party)
    requires PrimitivesWork(c) && |i.cfg.randoms.kemNonce| == KEMPART2_NONCE_SIZE
    requires IsDiffieHellman(i.Ka()) || IsKem(i.Ka())
    ensures |DhValue(c, i)| == DhPartValueLength(c, i.Ka(), false)
    ensures |AnswerValue(c, r, i)| == DhPartValueLength(c, i.Ka(), true) != 0
    ensures IsKem(i.Ka()) ==> |KemValue(c, i)| == RoundToWord(c.kemPublicLength(i.Ka()))
  {
  }

  lemma LengthsOf(c: Crypto, i: Party, r: Party, t: Script)
    requires PrimitivesWork(c) && OneMode(i, r) && AllSigned(t)
    requires |i.cfg.randoms.commitNonce| == 16 && |i.cfg.randoms.kemNonce| == KEMPART2_NONCE_SIZE
    ensures LengthsHold(c, i, r, t)
  {
    if !NonDh(i.Ka()) {
      ValuesHaveTheirLengths(c, i, r);
      var hashed := Wire(c, t.dhPart2) + Wire(c, t.responderHello);
      assert |c.hash(i.algos.hash, hashed, 32)| == 32;
    }
  }

  lemma ExchangeOf(c: Crypto, i: Party, r: Party)
    requires PrimitivesWork(c)
    ensures ExchangeWorks(c, i, r)
  {
  }

  lemma ScriptIsSound(c: Crypto, i: Party, r: Party, t: Script)
    requires PrimitivesWork(c) && OneMode(i, r) && IsScript(c, i, r, t)
    requires ConfiguredEnd(i.cfg) && ConfiguredEnd(r.cfg) && IdsTellApart(i, r, IdsOf(c, i, r), IdsOf(c, r, i))
    ensures Sound(c, i, r, t)
  {
    LengthsOf(c, i, r, t);
    ExchangeOf(c, i, r);
  }

  /** Honest configurations satisfy all the run lemmas ask for. */
  lemma HonestSetting(c: Crypto, x: Config, y: Config) returns (t: Script, u: Script)
    requires HonestEnds(c, x, y)
    ensures Setting(c, PartyOf(x, y), PartyOf(y, x), t, u)
    ensures t == ScriptOf(c, PartyOf(x, y), PartyOf(y, x)) && u == ScriptOf(c, PartyOf(y, x), PartyOf(x, y))
  {
    var i, r := PartyOf(x, y), PartyOf(y, x);
    PartySelects(x, y);
    PartySelects(y, x);
    EndsInOneMode(c, x, y);
    ScriptOfIsScript(c, i, r);
    ScriptOfIsScript(c, r, i);
    t, u := ScriptOf(c, i, r), ScriptOf(c, r, i);
    ScriptIsSound(c, i, r, t);
    ScriptIsSound(c, r, i, u);
  }

  // ---------------------------------------------------------------------
  // Theorems

  /** The state after a run that starts with two fresh channels. */
  function Reached(c: Crypto, x: Config, y: Config, run: seq<Event>): Global {
    After(c, Global(Start(x), Start(y), [], []), run)
  }

  lemma ReachedIsInvariant(c: Crypto, x: Config, y: Config, run: seq<Event>) returns (t: Script, u: Script)
    requires HonestEnds(c, x, y)
    ensures Setting(c, PartyOf(x, y), PartyOf(y, x), t, u)
    ensures t == ScriptOf(c, PartyOf(x, y), PartyOf(y, x)) && u == ScriptOf(c, PartyOf(y, x), PartyOf(x, y))
    ensures Invariant(PartyOf(x, y), PartyOf(y, x), t, u, Reached(c, x, y, run))
    ensures Faultless(c, Global(Start(x), Start(y), [], []), run)
  {
    t, u := HonestSetting(c, x, y);
    RunsAreSafe(c, PartyOf(x, y), PartyOf(y, x), t, u, run);
  }

  /** In no run are both ends responder, and in no run does a state function
      follow a NULL pointer. */
  lemma NeverTwoResponders(c: Crypto, x: Config, y: Config, run: seq<Event>)
    requires HonestEnds(c, x, y)
    ensures var g := Reached(c, x, y, run); !(g.x.role == Responder && g.y.role == Responder)
    ensures Faultless(c, Global(Start(x), Start(y), [], []), run)
  {
    var t, u := ReachedIsInvariant(c, x, y, run);
    InvariantRoles(PartyOf(x, y), PartyOf(y, x), t, u, Reached(c, x, y, run));
  }

  lemma InvariantRoles(x: Party, y: Party, t: Script, u: Script, g: Global)
    requires Invariant(x, y, t, u, g)
    ensures !(g.x.role == Responder && g.y.role == Responder)
  {
  }

  // ---------------------------------------------------------------------
  // What is sent

  /** The messages of an end: t is the script in which it is the initiator, u the
      one in which it is the responder. */
  predicate OfScripts(t: Script, u: Script, m: Message) {
    || m == t.initiatorHello || m == HelloAck || m == t.commit || m == t.dhPart2 || m == t.confirm2
    || m == u.dhPart1 || m == u.confirm1 || m == Conf2Ack
  }

  predicate SameKind(m: Message, n: Message) {
    match (m, n)
    case (Signed(HelloBody(_), _), Signed(HelloBody(_), _)) => true
    case (Signed(CommitBody(_), _), Signed(CommitBody(_), _)) => true
    case (Signed(DhPart1Body(_), _), Signed(DhPart1Body(_), _)) => true
    case (Signed(DhPart2Body(_), _), Signed(DhPart2Body(_), _)) => true
    case (HelloAck, HelloAck) => true
    case (Confirm1(_), Confirm1(_)) => true
    case (Confirm2(_), Confirm2(_)) => true
    case (Conf2Ack, Conf2Ack) => true
    case _ => false
  }

  ghost predicate OneOfEachKind(sent: seq<Message>) {
    forall m, n :: m in sent && n in sent && SameKind(m, n) ==> m == n
  }

  lemma SentIsOfScripts(t: Script, u: Script, dh: bool, stage: Stage, sent: seq<Message>)
    requires AllMaySend(t, u, dh, stage, sent) && Typed(t) && Typed(u)
    ensures forall m :: m in sent ==> OfScripts(t, u, m)
    ensures OneOfEachKind(sent)
  {
    forall m, n | m in sent && n in sent && SameKind(m, n) ensures m == n {
      OneMessageOfEachKind(t, u, m, n);
    }
  }

  lemma OneMessageOfEachKind(t: Script, u: Script, m: Message, n: Message)
    requires Typed(t) && Typed(u) && OfScripts(t, u, m) && OfScripts(t, u, n) && SameKind(m, n)
    ensures m == n
  {
  }

  /** Whatever the network does, an end only ever sends the eight messages that the
      two configurations determine, and so never two different ones of a kind: it
      never goes back on its Commit, nor on the value that Commit announced. */
  lemma OnlyScriptMessagesAreSent(c: Crypto, x: Config, y: Config, run: seq<Event>)
    requires HonestEnds(c, x, y)
    ensures var t, u := ScriptOf(c, PartyOf(x, y), PartyOf(y, x)), ScriptOf(c, PartyOf(y, x), PartyOf(x, y));
            var g := Reached(c, x, y, run);
            (forall m :: m in g.sentX ==> OfScripts(t, u, m)) && (forall m :: m in g.sentY ==> OfScripts(u, t, m))
    ensures var g := Reached(c, x, y, run); OneOfEachKind(g.sentX) && OneOfEachKind(g.sentY)
  {
    var i, r, g := PartyOf(x, y), PartyOf(y, x), Reached(c, x, y, run);
    var t, u := ReachedIsInvariant(c, x, y, run);
    SettingGives(c, i, r, t, u);
    SentIsOfScripts(t, u, !NonDh(i.Ka()), StageOf(g.x), g.sentX);
    SentIsOfScripts(u, t, !NonDh(i.Ka()), StageOf(g.y), g.sentY);
  }

  // ---------------------------------------------------------------------
  // Keys

  /** An end holds what the script of initiator i and responder r derives, srtp being
      the SRTP secrets of its role. */
  predicate HoldsScript(i: Party, r: Party, t: Script, srtp: Srtp, e: Endpoint) {
    && e.algos == i.algos && e.kdfContext == Some(t.kdfContext) && e.keys == Some(t.keys) && e.zrtpSess == t.sessionKey
    && (!NonDh(i.Ka()) ==> e.zrtpSessContext == r.cfg.zid)
    && (e.s0.Some? ==> e.s0 == Some(t.s0)) && (e.srtp.Some? ==> e.srtp == Some(srtp))
  }

  lemma KeyedEndHoldsScript(x: Party, y: Party, t: Script, u: Script, e: Endpoint)
    requires AtStage(x, y, t, u, e) && e.keys.Some?
    ensures e.cfg == x.cfg
    ensures if e.role == Initiator then HoldsScript(x, y, t, t.initiatorSrtp, e) else HoldsScript(y, x, u, u.responderSrtp, e)
  {
  }

  lemma KeyedEndsHaveRoles(x: Party, y: Party, t: Script, u: Script, g: Global)
    requires x.Ka() == y.Ka() && Invariant(x, y, t, u, g) && g.x.keys.Some? && g.y.keys.Some?
    ensures g.x.role != g.y.role
  {
  }

  predicate Mirror(a: Srtp, b: Srtp) {
    a.selfKey == b.peerKey && a.selfSalt == b.peerSalt && a.peerKey == b.selfKey && a.peerSalt == b.selfSalt && a.sasHash == b.sasHash
  }

  /** One end is the initiator and one the responder; the algorithms, the KDF
      context, s0, the session key and the keys of the Confirm messages are the
      same at both, and the context of a session key just derived is the
      responder's ZID at both; what one end encrypts with the other decrypts with,
      and both show one SAS. */
  predicate SameKeys(a: Endpoint, b: Endpoint) {
    && a.role != b.role && a.algos == b.algos
    && (!NonDh(a.algos.keyAgreement) ==>
          a.zrtpSessContext == b.zrtpSessContext == (if a.role == Responder then a.cfg.zid else b.cfg.zid))
    && a.kdfContext == b.kdfContext && a.kdfContext.Some?
    && a.keys == b.keys && a.zrtpSess == b.zrtpSess && a.zrtpSess.Some?
    && (a.s0.Some? && b.s0.Some? ==> a.s0 == b.s0)
    && (a.srtp.Some? && b.srtp.Some? ==> Mirror(a.srtp.value, b.srtp.value))
  }

  lemma SrtpMirrored(c: Crypto, i: Party, r: Party, t: Script)
    requires KeysOf(c, i, r, t) && ConfirmsOf(c, i, r, t)
    ensures Mirror(t.initiatorSrtp, t.responderSrtp) && Mirror(t.responderSrtp, t.initiatorSrtp)
    ensures t.sessionKey.Some?
  {
  }

  lemma BothMirrored(c: Crypto, x: Party, y: Party, t: Script, u: Script)
    requires Setting(c, x, y, t, u)
    ensures Mirror(t.initiatorSrtp, t.responderSrtp) && t.sessionKey.Some?
    ensures Mirror(u.responderSrtp, u.initiatorSrtp) && u.sessionKey.Some?
    ensures x.Ka() == y.Ka()
  {
    SrtpMirrored(c, x, y, t);
    SrtpMirrored(c, y, x, u);
  }

  lemma ScriptHoldersShareKeys(i: Party, r: Party, t: Script, a: Endpoint, b: Endpoint)
    requires HoldsScript(i, r, t, t.initiatorSrtp, a) && HoldsScript(i, r, t, t.responderSrtp, b)
    requires a.role == Initiator && b.role == Responder && b.cfg == r.cfg && t.sessionKey.Some?
    requires Mirror(t.initiatorSrtp, t.responderSrtp) && Mirror(t.responderSrtp, t.initiatorSrtp)
    ensures SameKeys(a, b) && SameKeys(b, a)
  {
  }

  lemma KeyedEndsShareKeys(x: Party, y: Party, t: Script, u: Script, g: Global)
    requires x.Ka() == y.Ka() && Invariant(x, y, t, u, g) && g.x.keys.Some? && g.y.keys.Some?
    requires Mirror(t.initiatorSrtp, t.responderSrtp) && t.sessionKey.Some?
    requires Mirror(u.responderSrtp, u.initiatorSrtp) && u.sessionKey.Some?
    ensures SameKeys(g.x, g.y) && g.x.cfg == x.cfg && g.y.cfg == y.cfg
  {
    KeyedEndsHaveRoles(x, y, t, u, g);
    KeyedEndHoldsScript(x, y, t, u, g.x);
    KeyedEndHoldsScript(y, x, u, t, g.y);
    if g.x.role == Initiator {
      ScriptHoldersShareKeys(x, y, t, g.x, g.y);
    } else {
      ScriptHoldersShareKeys(y, x, u, g.y, g.x);
    }
  }

  /** Section 4.4.1.4 of RFC 6189: in every run, once both ends have keys they
      have the same ones, in opposite roles. */
  lemma BothEndsDeriveTheSameKeys(c: Crypto, x: Config, y: Config, run: seq<Event>)
    requires HonestEnds(c, x, y)
    ensures var g := Reached(c, x, y, run);
            g.x.keys.Some? && g.y.keys.Some? ==> SameKeys(g.x, g.y) && g.x.cfg == x && g.y.cfg == y
  {
    var i, r, g := PartyOf(x, y), PartyOf(y, x), Reached(c, x, y, run);
    var t, u := ReachedIsInvariant(c, x, y, run);
    BothMirrored(c, i, r, t, u);
    if g.x.keys.Some? && g.y.keys.Some? {
      KeyedEndsShareKeys(i, r, t, u, g);
    }
  }

  // ---------------------------------------------------------------------
  // Secure ends

  lemma SecureEndFacts(x: Party, y: Party, t: Script, u: Script, g: Global)
    requires x.Ka() == y.Ka() && Invariant(x, y, t, u, g) && g.x.isSecure
    ensures g.x.srtp.Some? && g.x.peerH0 == y.cfg.h0 && g.x.keys.Some? && g.y.keys.Some?
    ensures g.x.state == Secure && (g.y.srtp.Some? || g.x.role == Initiator)
  {
  }

  /** An end that is secure has SRTP keys and holds the H0 its peer drew; the peer
      has derived the same keys, and holds the mirrored SRTP keys if it is the
      initiator or is secure as well. */
  lemma SecureEndsHaveAPeer(c: Crypto, x: Config, y: Config, run: seq<Event>)
    requires HonestEnds(c, x, y)
    ensures var g := Reached(c, x, y, run);
            g.x.isSecure ==> g.x.srtp.Some? && g.x.peerH0 == y.h0 && SameKeys(g.x, g.y) && (g.x.role == Responder ==> g.y.srtp.Some?)
  {
    var t, u := ReachedIsInvariant(c, x, y, run);
    BothMirrored(c, PartyOf(x, y), PartyOf(y, x), t, u);
    if Reached(c, x, y, run).x.isSecure {
      SecureEndFacts(PartyOf(x, y), PartyOf(y, x), t, u, Reached(c, x, y, run));
      BothEndsDeriveTheSameKeys(c, x, y, run);
    }
  }

  /** Keys, once derived, are never rewritten, whatever is repeated. */
  lemma {:induction false} KeysAreNeverRewritten(c: Crypto, x: Config, y: Config, run: seq<Event>, more: seq<Event>)
    requires HonestEnds(c, x, y)
    ensures var before, after := Reached(c, x, y, run), Reached(c, x, y, run + more);
            && (before.x.keys.Some? ==> after.x.keys == before.x.keys)
            && (before.y.keys.Some? ==> after.y.keys == before.y.keys)
  {
    if more == [] {
      assert run + more == run;
    } else {
      var front, last := more[..|more| - 1], more[|more| - 1];
      assert (run + more)[..|run + more| - 1] == run + front && (run + more)[|run + more| - 1] == last;
      KeysAreNeverRewritten(c, x, y, run, front);
      var t, u := ReachedIsInvariant(c, x, y, run + front);
      EventKeepsInvariant(c, PartyOf(x, y), PartyOf(y, x), t, u, Reached(c, x, y, run + front), last);
    }
  }

  // ---------------------------------------------------------------------
  // Contention

  // OnSendingCommit is the state function of an end that sends Commits.
  lemma CommittingMeetsPeerCommit(c: Crypto, x: Party, y: Party, t: Script, u: Script, e: Endpoint)
    requires Setting(c, x, y, t, u) && IsCommitting(x, y, t, e)
    ensures var next := OnSendingCommit(c, e, u.commit).next; if GivesWayTo(t, u) then next.role == Responder else next == e
  {
    CommittingMeetsCommit(c, x, y, t, u, e);
  }

  // What becomes of two ends when each receives the other's Commit.
  predicate ElectOneResponder(x: Endpoint, y: Endpoint, commitX: Message, commitY: Message, nextX: Endpoint, nextY: Endpoint)
    requires IsCommit(Some(commitX)) && IsCommit(Some(commitY))
  {
    var a, b := ContentionValue(commitX.body.commit), ContentionValue(commitY.body.commit);
    && (nextX.role == Responder <==> BigEndian(a) < BigEndian(b))
    && (nextY.role == Responder <==> BigEndian(b) < BigEndian(a))
    && (nextX.role == Responder || nextY.role == Responder <==> a != b)
    && (nextX.role == Initiator ==> nextX == x) && (nextY.role == Initiator ==> nextY == y)
  }

  lemma ContentionElects(t: Script, u: Script, x: Endpoint, y: Endpoint, nextX: Endpoint, nextY: Endpoint)
    requires IsCommit(Some(t.commit)) && IsCommit(Some(u.commit)) && x.role == Initiator && y.role == Initiator
    requires var a, b := ContentionValue(t.commit.body.commit), ContentionValue(u.commit.body.commit);
             && (GivesWayTo(t, u) || GivesWayTo(u, t) <==> a != b)
             && (GivesWayTo(t, u) <==> BigEndian(a) < BigEndian(b)) && (GivesWayTo(u, t) <==> BigEndian(b) < BigEndian(a))
    requires if GivesWayTo(t, u) then nextX.role == Responder else nextX == x
    requires if GivesWayTo(u, t) then nextY.role == Responder else nextY == y
    ensures ElectOneResponder(x, y, t.commit, u.commit, nextX, nextY)
  {
  }

  lemma CommittingEndsElect(c: Crypto, x: Party, y: Party, t: Script, u: Script, a: Endpoint, b: Endpoint)
    requires Setting(c, x, y, t, u) && IsCommitting(x, y, t, a) && IsCommitting(y, x, u, b)
    ensures IsCommit(Some(t.commit)) && IsCommit(Some(u.commit))
    ensures ElectOneResponder(a, b, t.commit, u.commit, OnSendingCommit(c, a, u.commit).next, OnSendingCommit(c, b, t.commit).next)
  {
    SettingMirrored(c, x, y, t, u);
    CommittingMeetsPeerCommit(c, x, y, t, u, a);
    CommittingMeetsPeerCommit(c, y, x, u, t, b);
    ContentionDecides(c, x, y, t, u);
    ContentionDecides(c, y, x, u, t);
    ContentionElects(t, u, a, b, OnSendingCommit(c, a, u.commit).next, OnSendingCommit(c, b, t.commit).next);
  }

  lemma CommittingEnds(x: Party, y: Party, t: Script, u: Script, g: Global)
    requires x.Ka() == y.Ka() && Invariant(x, y, t, u, g) && g.x.state == SendingCommit && g.y.state == SendingCommit
    ensures IsCommitting(x, y, t, g.x) && IsCommitting(y, x, u, g.y)
  {
  }

  /** Section 4.2 of RFC 6189. Two ends that are both sending Commits, each of
      which reaches the other: exactly one turns responder, the one whose hvi or
      nonce is the lower unsigned integer, unless the two values are equal, when
      neither does. */
  lemma CrossedCommitsElectOneResponder(c: Crypto, x: Config, y: Config, run: seq<Event>) returns (commitX: Message, commitY: Message)
    requires HonestEnds(c, x, y)
    requires var g := Reached(c, x, y, run); g.x.state == SendingCommit && g.y.state == SendingCommit
    ensures var g := Reached(c, x, y, run);
            && IsCommit(Some(commitX)) && IsCommit(Some(commitY)) && g.x.selfCommit == Some(commitX) && g.y.selfCommit == Some(commitY)
            && ElectOneResponder(g.x, g.y, commitX, commitY, OnSendingCommit(c, g.x, commitY).next, OnSendingCommit(c, g.y, commitX).next)
  {
    var t, u := ReachedIsInvariant(c, x, y, run);
    var g := Reached(c, x, y, run);
    BothMirrored(c, PartyOf(x, y), PartyOf(y, x), t, u);
    CommittingEnds(PartyOf(x, y), PartyOf(y, x), t, u, g);
    CommittingEndsElect(c, PartyOf(x, y), PartyOf(y, x), t, u, g.x, g.y);
    commitX, commitY := t.commit, u.commit;
  }

  // ---------------------------------------------------------------------
  // The caches after a run

  lemma ScriptMatches(c: Crypto, i: Party, r: Party, t: Script)
    requires WellFormed(i.cfg.retained) && WellFormed(r.cfg.retained)
    requires MessagesOf(c, i, r, t) && MatchesOf(i, r, t) && IdsTellApart(i, r, IdsOf(c, i, r), IdsOf(c, r, i))
    ensures t.initiatorMatch == InitiatorKeeps(SameHash(i, r), i.cfg.retained, r.cfg.retained)
    ensures t.responderMatch == ResponderKeeps(SameHash(i, r), r.cfg.retained, i.cfg.retained)
  {
    MatchesAreFaithful(SameHash(i, r), i.cfg.retained, r.cfg.retained, t.initiatorIds.responder, t.responderIds.responder,
                       t.initiatorIds.initiator, t.responderIds.initiator);
  }

  lemma SettingMatches(c: Crypto, x: Party, y: Party, t: Script, u: Script)
    requires Setting(c, x, y, t, u)
    ensures t.initiatorMatch == InitiatorKeeps(SameHash(x, y), x.cfg.retained, y.cfg.retained)
    ensures t.responderMatch == ResponderKeeps(SameHash(x, y), y.cfg.retained, x.cfg.retained)
    ensures u.initiatorMatch == InitiatorKeeps(SameHash(x, y), y.cfg.retained, x.cfg.retained)
    ensures u.responderMatch == ResponderKeeps(SameHash(x, y), x.cfg.retained, y.cfg.retained)
  {
    ScriptMatches(c, x, y, t);
    ScriptMatches(c, y, x, u);
  }

  /** The session of the retained-secret model a run amounts to: which end
      initiated it and who updated its cache. */
  function SessionOf(g: Global, derived: Bytes, sameHash: bool): Session {
    Session(if g.y.role == Responder then A else B,
            if g.x.isSecure && g.y.isSecure then Complete else if g.x.isSecure || g.y.isSecure then ResponderOnly else Aborted,
            derived, false, false, sameHash)
  }

  lemma CacheOfEnd(x: Party, y: Party, t: Script, u: Script, e: Endpoint)
    requires x.Ka() == y.Ka() && !NonDh(x.Ka()) && AtStage(x, y, t, u, e)
    ensures e.cache == if !e.isSecure then x.cfg.retained
                       else if e.role == Initiator then Updated(x.cfg.retained, t.initiatorMatch, t.newRs1, false)
                       else Updated(x.cfg.retained, u.responderMatch, u.newRs1, false)
  {
  }

  // The responder is secure first.
  lemma SecureRoles(x: Party, y: Party, t: Script, u: Script, g: Global)
    requires x.Ka() == y.Ka() && Invariant(x, y, t, u, g)
    ensures g.x.isSecure || g.y.isSecure ==> g.x.role != g.y.role
    ensures g.x.isSecure && !g.y.isSecure ==> g.x.role == Responder
    ensures g.y.isSecure && !g.x.isSecure ==> g.y.role == Responder
  {
  }

  lemma CachesOfInvariant(x: Party, y: Party, t: Script, u: Script, g: Global) returns (derived: Bytes)
    requires x.Ka() == y.Ka() && !NonDh(x.Ka()) && Invariant(x, y, t, u, g)
    requires t.initiatorMatch == InitiatorKeeps(SameHash(x, y), x.cfg.retained, y.cfg.retained)
    requires t.responderMatch == ResponderKeeps(SameHash(x, y), y.cfg.retained, x.cfg.retained)
    requires u.initiatorMatch == InitiatorKeeps(SameHash(x, y), y.cfg.retained, x.cfg.retained)
    requires u.responderMatch == ResponderKeeps(SameHash(x, y), x.cfg.retained, y.cfg.retained)
    ensures Caches(g.x.cache, g.y.cache) == AfterSession(Caches(x.cfg.retained, y.cfg.retained), SessionOf(g, derived, SameHash(x, y)))
  {
    derived := if g.y.role == Responder then t.newRs1 else u.newRs1;
    CacheOfEnd(x, y, t, u, g.x);
    CacheOfEnd(y, x, u, t, g.y);
    SecureRoles(x, y, t, u, g);
  }

  lemma FirstChannelsExchange(x: Config, y: Config)
    requires Configured(x.lists) && Configured(y.lists) && PartyOf(x, y).Ka() != KEYAGREEMENT_MULT
    ensures !NonDh(PartyOf(x, y).Ka())
  {
    PartySelects(x, y);
  }

  /** A run on a first channel is one session of the retained-secret model, whichever
      hash each end selects: what both caches hold after it is what that model
      says. */
  lemma RunsAreSessions(c: Crypto, x: Config, y: Config, run: seq<Event>) returns (derived: Bytes)
    requires HonestEnds(c, x, y) && !MultiStream(x)
    ensures var g := Reached(c, x, y, run);
            Caches(g.x.cache, g.y.cache) == AfterSession(Caches(x.retained, y.retained), SessionOf(g, derived, SameHash(PartyOf(x, y), PartyOf(y, x))))
  {
    var i, r := PartyOf(x, y), PartyOf(y, x);
    var t, u := ReachedIsInvariant(c, x, y, run);
    SettingGives(c, i, r, t, u);
    SettingMatches(c, i, r, t, u);
    FirstChannelsExchange(x, y);
    derived := CachesOfInvariant(i, r, t, u, Reached(c, x, y, run));
  }

  // ---------------------------------------------------------------------
  // Ends that select different hashes

  lemma KeyedEndMismatch(x: Party, y: Party, t: Script, u: Script, e: Endpoint)
    requires x.Ka() == y.Ka() && !NonDh(x.Ka()) && AtStage(x, y, t, u, e) && e.keys.Some?
    requires x.cfg.retained.rs1.Some? && x.cfg.retained.rs1 == y.cfg.retained.rs1
    ensures e.cacheMismatch <==> !SameHash(x, y)
  {
  }

  lemma SelectedHashes(x: Config, y: Config)
    requires Configured(x.lists) && Configured(y.lists)
    ensures SameHash(PartyOf(x, y), PartyOf(y, x)) <==> SameFirstHash(x.lists, y.lists) || AgreeOnDemanding(x.lists, y.lists)
  {
    ReceivedAsSent(x.lists);
    ReceivedAsSent(y.lists);
    HashesAgreeIff(x.lists, y.lists, UNSET_ALGOS, UNSET_ALGOS);
  }

  /** Two ends whose caches hold one rs1, in any run on a first channel: once keyed, an
      end reports a mismatch exactly when the two lists of hashes do not start, of
      what both have, with the same one, and the key agreement does not ask for the
      strongest. The secret they share is then not used. */
  lemma SharedSecretIsMissedIff(c: Crypto, x: Config, y: Config, run: seq<Event>)
    requires HonestEnds(c, x, y) && !MultiStream(x)
    requires x.retained.rs1.Some? && x.retained.rs1 == y.retained.rs1
    ensures var g := Reached(c, x, y, run);
            var oneHash := SameFirstHash(x.lists, y.lists) || AgreeOnDemanding(x.lists, y.lists);
            && (g.x.keys.Some? ==> (g.x.cacheMismatch <==> !oneHash))
            && (g.y.keys.Some? ==> (g.y.cacheMismatch <==> !oneHash))
  {
    var i, r, g := PartyOf(x, y), PartyOf(y, x), Reached(c, x, y, run);
    var t, u := ReachedIsInvariant(c, x, y, run);
    SettingGives(c, i, r, t, u);
    FirstChannelsExchange(x, y);
    SelectedHashes(x, y);
    if g.x.keys.Some? {
      KeyedEndMismatch(i, r, t, u, g.x);
    }
    if g.y.keys.Some? {
      KeyedEndMismatch(r, i, u, t, g.y);
    }
  }
}
