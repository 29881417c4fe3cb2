/** The exchange two ends carry out, seen from outside: the messages each of them
    sends and the secrets they derive, as functions of the two configurations
    alone, and what each end holds at each stage. This is the reference against
    which runs of the state machine are judged. */
module Exchange {
  import opened Octets
  import opened Negotiation
  import opened Agreement
  import opened RetainedSecrets
  import opened Messages
  import opened Protocol

  /** An end, with the algorithms its Hello exchange selects. */
  datatype Party = Party(cfg: Config, algos: Algos)
  {
    function Ka(): byte { algos.keyAgreement }

    function Secrets(): Secrets {
      Protocol.Secrets(cfg.retained, WithTransient(cfg.aux, cfg.transientAux), cfg.pbx)
    }
  }

  const UNSET_ALGOS := Algos(UNSET_ALGO, UNSET_ALGO, UNSET_ALGO, UNSET_ALGO, UNSET_ALGO)

  /** A further channel of a context that already has a session key. */
  predicate MultiStream(cfg: Config) {
    !cfg.isMainChannel && cfg.zrtpSess.Some?
  }

  /** x's algorithms are those it selects on y's Hello. */
  predicate Selects(x: Party, y: Party) {
    var (ret, algos) := Agree(x.cfg.lists, Received(y.cfg.lists), UNSET_ALGOS);
    && ret == 0
    && x.algos == if MultiStream(x.cfg) then algos.(keyAgreement := KEYAGREEMENT_MULT) else algos
  }

  // ---------------------------------------------------------------------
  // The script of an exchange between initiator i and responder r

  /** Every message and every secret of one exchange. The ids are those each end
      uses in its role. */
  datatype Script = Script(
    initiatorIds: Ids, responderIds: Ids,
    initiatorHello: Message, responderHello: Message, commit: Message, dhPart1: Message, dhPart2: Message,
    initiatorMatch: Match, responderMatch: Match,
    shared: Bytes, kdfContext: Bytes, s0: Bytes, sessionKey: Option<Bytes>, keys: Keys,
    initiatorSrtp: Srtp, responderSrtp: Srtp, newRs1: Bytes,
    confirm1: Message, confirm2: Message)

  function IdsOf(c: Crypto, x: Party, y: Party): Ids {
    ComputeIds(c, x.cfg, x.algos.hash, x.Secrets(), H3(c, y.cfg))
  }

  function DhValue(c: Crypto, x: Party): Bytes {
    if IsDiffieHellman(x.Ka()) then c.dhPublic(x.Ka(), x.cfg.randoms.dhPrivate) else x.cfg.randoms.kemNonce
  }

  function KemValue(c: Crypto, i: Party): Bytes {
    c.kemPublic(i.Ka(), i.algos.hash, i.cfg.randoms.kemSeed)
  }

  function AnswerValue(c: Crypto, r: Party, i: Party): Bytes {
    if IsDiffieHellman(i.Ka()) then c.dhPublic(i.Ka(), r.cfg.randoms.dhPrivate)
    else c.kemCipherText(i.Ka(), i.algos.hash, KemValue(c, i), r.cfg.randoms.kemCoins)
  }

  function CommitFrom(c: Crypto, i: Party, dhPart2: Message, hello: Message): (m: Message)
    requires dhPart2.Signed? && hello.Signed?
    ensures IsCommit(Some(m))
  {
    var hvi := Hvi(c, i.algos.hash, dhPart2, hello);
    if NonDh(i.Ka()) then CommitPacket(c, i.cfg, i.algos, [], [], i.cfg.randoms.commitNonce)
    else if IsKem(i.Ka()) then CommitPacket(c, i.cfg, i.algos, hvi, KemValue(c, i), [])
    else CommitPacket(c, i.cfg, i.algos, hvi, [], [])
  }

  /** The messages, each defined from those before it. */
  predicate MessagesOf(c: Crypto, i: Party, r: Party, t: Script) {
    && t.initiatorIds == IdsOf(c, i, r) && t.responderIds == SwapAux(IdsOf(c, r, i))
    && t.initiatorHello == SelfHello(c, i.cfg) && t.responderHello == SelfHello(c, r.cfg)
    && t.dhPart1 == DhPart1Packet(c, r.cfg, t.responderIds, AnswerValue(c, r, i))
    && t.dhPart2 == DhPart2Packet(c, i.cfg, t.initiatorIds, DhValue(c, i))
    && t.commit == CommitFrom(c, i, t.dhPart2, t.responderHello)
  }

  predicate SameHash(x: Party, y: Party) {
    x.algos.hash == y.algos.hash
  }

  function S1Of(i: Party, r: Party): Option<Bytes> {
    if SameHash(i, r) then SharedSecret(i.cfg.retained, r.cfg.retained) else None
  }

  function SharedOther(i: Party, r: Party, ofI: Option<Bytes>, ofR: Option<Bytes>): Option<Bytes> {
    if SameHash(i, r) && ofI == ofR then ofI else None
  }

  function S2Of(i: Party, r: Party): Option<Bytes> {
    SharedOther(i, r, i.Secrets().aux, r.Secrets().aux)
  }

  function S3Of(i: Party, r: Party): Option<Bytes> {
    SharedOther(i, r, i.Secrets().pbx, r.Secrets().pbx)
  }

  function ReceivedIds(m: Message): SecretIds
    requires IsDhPart(Some(m))
  {
    SecretIds(m.body.dhPart.rs1Id, m.body.dhPart.rs2Id)
  }

  /** An end with secrets of which the peer has none: it reports a cache
      mismatch. */
  predicate Mismatched(x: Party, i: Party, r: Party) {
    !NonDh(i.Ka()) && x.cfg.retained.rs1.Some? && S1Of(i, r) == None
  }

  /** What the comparison of secret identifiers leaves to each end. */
  predicate MatchesOf(i: Party, r: Party, t: Script) {
    && IsDhPart(Some(t.dhPart1)) && IsDhPart(Some(t.dhPart2))
    && t.initiatorMatch == InitiatorMatch(i.cfg.retained, false, t.initiatorIds.responder, ReceivedIds(t.dhPart1))
    && t.responderMatch == ResponderMatch(r.cfg.retained, false, t.responderIds.initiator, ReceivedIds(t.dhPart2))
  }

  /** The result of the Diffie-Hellman or KEM exchange. */
  function SharedOf(c: Crypto, i: Party, r: Party): Bytes {
    if IsDiffieHellman(i.Ka()) then c.dhShared(i.Ka(), i.cfg.randoms.dhPrivate, c.dhPublic(i.Ka(), r.cfg.randoms.dhPrivate))
    else c.kemSecret(i.Ka(), i.algos.hash, KemValue(c, i), r.cfg.randoms.kemCoins)
  }

  /** The messages hashed in total_hash, sections 4.4.1.4 and 4.4.3.2 of RFC
      6189. */
  function Hashed(c: Crypto, keyAgreement: byte, hello: Message, commit: Message, dhPart1: Message, dhPart2: Message): Bytes
    requires hello.Signed? && commit.Signed? && dhPart1.Signed? && dhPart2.Signed?
  {
    if NonDh(keyAgreement) then Wire(c, hello) + Wire(c, commit)
    else Wire(c, hello) + Wire(c, commit) + Wire(c, dhPart1) + Wire(c, dhPart2)
  }

  predicate AllSigned(t: Script) {
    && IsHello(Some(t.initiatorHello)) && IsHello(Some(t.responderHello)) && IsCommit(Some(t.commit))
    && t.dhPart1.Signed? && t.dhPart1.body.DhPart1Body? && t.dhPart2.Signed? && t.dhPart2.body.DhPart2Body?
  }

  /** s0, the session key and the keys of the Confirm messages. */
  predicate KeysOf(c: Crypto, i: Party, r: Party, t: Script) {
    && AllSigned(t)
    && t.shared == SharedOf(c, i, r)
    && t.kdfContext == KdfContext(c, i.algos.hash, i.cfg.zid, r.cfg.zid,
                                  Hashed(c, i.Ka(), t.responderHello, t.commit, t.dhPart1, t.dhPart2))
    && (NonDh(i.Ka()) ==> i.cfg.zrtpSess.Some? && t.s0 == MultiStreamS0(c, i.algos.hash, i.cfg.zrtpSess.value, t.kdfContext)
                          && t.sessionKey == i.cfg.zrtpSess)
    && (!NonDh(i.Ka()) ==> t.s0 == S0(c, i.algos.hash, t.shared, t.kdfContext, S1Of(i, r), S2Of(i, r), S3Of(i, r))
                           && t.sessionKey == Some(SessionKey(c, i.algos.hash, t.s0, t.kdfContext)))
    && t.keys == DerivedKeys(c, i.algos, t.s0, t.kdfContext)
  }

  /** The Confirm messages, what they protect, and the SRTP and retained secrets
      derived beside them. */
  predicate ConfirmsOf(c: Crypto, i: Party, r: Party, t: Script) {
    && t.confirm1 == Confirm1(ConfirmPacket(c, r.cfg, i.algos, r.cfg.pvs && !Mismatched(r, i, r), t.keys.mackeyr, t.keys.zrtpkeyr))
    && t.confirm2 == Confirm2(ConfirmPacket(c, i.cfg, i.algos, i.cfg.pvs && !Mismatched(i, i, r), t.keys.mackeyi, t.keys.zrtpkeyi))
    && t.initiatorSrtp == DerivedSrtp(c, i.algos, Initiator, t.s0, t.kdfContext)
    && t.responderSrtp == DerivedSrtp(c, i.algos, Responder, t.s0, t.kdfContext)
    && t.newRs1 == c.kdf(i.algos.hash, t.s0, RetainedSecretLabel, t.kdfContext, RETAINED_SECRET_LENGTH)
  }

  predicate IsScript(c: Crypto, i: Party, r: Party, t: Script) {
    MessagesOf(c, i, r, t) && MatchesOf(i, r, t) && KeysOf(c, i, r, t) && ConfirmsOf(c, i, r, t)
  }

  /** The script, computed: two configurations determine it entirely. */
  function ScriptOf(c: Crypto, i: Party, r: Party): Script {
    var idsI, idsR := IdsOf(c, i, r), SwapAux(IdsOf(c, r, i));
    var helloI, helloR := SelfHello(c, i.cfg), SelfHello(c, r.cfg);
    var dhPart1 := DhPart1Packet(c, r.cfg, idsR, AnswerValue(c, r, i));
    var dhPart2 := DhPart2Packet(c, i.cfg, idsI, DhValue(c, i));
    var commit := CommitFrom(c, i, dhPart2, helloR);
    var shared := SharedOf(c, i, r);
    var kdfContext := KdfContext(c, i.algos.hash, i.cfg.zid, r.cfg.zid, Hashed(c, i.Ka(), helloR, commit, dhPart1, dhPart2));
    var s0 := if NonDh(i.Ka()) then MultiStreamS0(c, i.algos.hash, i.cfg.zrtpSess.GetOr([]), kdfContext)
              else S0(c, i.algos.hash, shared, kdfContext, S1Of(i, r), S2Of(i, r), S3Of(i, r));
    var sessionKey := if NonDh(i.Ka()) then i.cfg.zrtpSess else Some(SessionKey(c, i.algos.hash, s0, kdfContext));
    var keys := DerivedKeys(c, i.algos, s0, kdfContext);
    Script(idsI, idsR, helloI, helloR, commit, dhPart1, dhPart2,
           InitiatorMatch(i.cfg.retained, false, idsI.responder, ReceivedIds(dhPart1)),
           ResponderMatch(r.cfg.retained, false, idsR.initiator, ReceivedIds(dhPart2)),
           shared, kdfContext, s0, sessionKey, keys,
           DerivedSrtp(c, i.algos, Initiator, s0, kdfContext), DerivedSrtp(c, i.algos, Responder, s0, kdfContext),
           c.kdf(i.algos.hash, s0, RetainedSecretLabel, kdfContext, RETAINED_SECRET_LENGTH),
           Confirm1(ConfirmPacket(c, r.cfg, i.algos, r.cfg.pvs && !Mismatched(r, i, r), keys.mackeyr, keys.zrtpkeyr)),
           Confirm2(ConfirmPacket(c, i.cfg, i.algos, i.cfg.pvs && !Mismatched(i, i, r), keys.mackeyi, keys.zrtpkeyi)))
  }

  lemma ScriptOfIsScript(c: Crypto, i: Party, r: Party)
    requires NonDh(i.Ka()) ==> i.cfg.zrtpSess.Some?
    ensures IsScript(c, i, r, ScriptOf(c, i, r))
  {
  }

  // ---------------------------------------------------------------------
  // What the cryptography owes the two ends

  /** The two ends run in one mode: multistream on both, with one session key, or
      the same Diffie-Hellman or KEM algorithm on both; their hash chains start
      from 256 bits. */
  predicate OneMode(x: Party, y: Party) {
    && |x.cfg.h0| == H0_LENGTH && |y.cfg.h0| == H0_LENGTH
    && x.Ka() == y.Ka()
    && MultiStream(x.cfg) == MultiStream(y.cfg)
    && (MultiStream(x.cfg) ==> x.Ka() == KEYAGREEMENT_MULT && x.cfg.zrtpSess == y.cfg.zrtpSess)
    && (!MultiStream(x.cfg) ==> IsDiffieHellman(x.Ka()) || IsKem(x.Ka()))
  }

  /** Values have the lengths their algorithm says. */
  predicate LengthsHold(c: Crypto, i: Party, r: Party, t: Script) {
    && AllSigned(t)
    && |i.cfg.randoms.commitNonce| == 16
    && (!NonDh(i.Ka()) ==>
          && |Hvi(c, i.algos.hash, t.dhPart2, t.responderHello)| == 32
          && |DhValue(c, i)| == DhPartValueLength(c, i.Ka(), false)
          && |AnswerValue(c, r, i)| == DhPartValueLength(c, i.Ka(), true) != 0
          && (IsKem(i.Ka()) ==> |KemValue(c, i)| == RoundToWord(c.kemPublicLength(i.Ka()))))
  }

  /** Diffie-Hellman results commute, decapsulation undoes encapsulation. */
  predicate ExchangeWorks(c: Crypto, i: Party, r: Party) {
    && (IsDiffieHellman(i.Ka()) ==>
          SharedOf(c, i, r) == c.dhShared(i.Ka(), r.cfg.randoms.dhPrivate, c.dhPublic(i.Ka(), i.cfg.randoms.dhPrivate)))
    && (IsKem(i.Ka()) ==> SharedOf(c, i, r) == c.kemDecaps(i.Ka(), i.algos.hash, i.cfg.randoms.kemSeed, AnswerValue(c, r, i)))
  }

  /** Decryption undoes encryption, and parsing undoes the layout of a Confirm. */
  ghost predicate ConfirmsOpen(c: Crypto) {
    && (forall cipher, key, iv, plain {:trigger c.encrypt(cipher, key, iv, plain)} ::
          c.decrypt(cipher, key, iv, c.encrypt(cipher, key, iv, plain)) == plain)
    && (forall body {:trigger c.plain(body)} :: WellFormedConfirm(body) ==> c.readPlain(c.plain(body)) == body)
  }

  /** Identifiers tell secrets apart: MACs of different secrets, or under different
      hashes, do not collide, nor do random identifiers. */
  predicate IdsTellApart(i: Party, r: Party, idsI: Ids, idsR: Ids) {
    && Distinguish(SameHash(i, r), i.cfg.retained, idsI.responder, r.cfg.retained, idsR.responder)
    && Distinguish(SameHash(i, r), i.cfg.retained, idsI.initiator, r.cfg.retained, idsR.initiator)
    && (idsI.responderAux == idsR.initiatorAux <==> SameHash(i, r) && i.Secrets().aux.Some? && i.Secrets().aux == r.Secrets().aux)
    && (idsI.initiatorAux == idsR.responderAux <==> SameHash(i, r) && i.Secrets().aux.Some? && i.Secrets().aux == r.Secrets().aux)
    && (idsI.responderPbx == idsR.responderPbx <==> SameHash(i, r) && i.cfg.pbx.Some? && i.cfg.pbx == r.cfg.pbx)
    && (idsI.initiatorPbx == idsR.initiatorPbx <==> SameHash(i, r) && i.cfg.pbx.Some? && i.cfg.pbx == r.cfg.pbx)
  }

  ghost predicate Sound(c: Crypto, i: Party, r: Party, t: Script) {
    && OneMode(i, r) && ConfirmsOpen(c) && ExchangeWorks(c, i, r)
    && WellFormed(i.cfg.retained) && WellFormed(r.cfg.retained)
    && LengthsHold(c, i, r, t) && IdsTellApart(i, r, IdsOf(c, i, r), IdsOf(c, r, i))
  }

  // ---------------------------------------------------------------------
  // Stages of an end x facing y: t is the script in which x is the initiator, u
  // the one in which it is the responder

  datatype Stage =
    | Discovering | HelloAcked | Greeted | Committing
    | Initiating | InitiatorConfirming | InitiatorSecure
    | Responding | ResponderConfirming | ResponderSecure

  function StageOf(e: Endpoint): Stage {
    match e.state
    case DiscoveryInit => Discovering
    case WaitingForHello => HelloAcked
    case WaitingForHelloAck => Greeted
    case SendingCommit => Committing
    case ResponderSendingDhPart1 => Responding
    case InitiatorSendingDhPart2 => Initiating
    case ResponderSendingConfirm1 => ResponderConfirming
    case InitiatorSendingConfirm2 => InitiatorConfirming
    case Secure => if e.role == Initiator then InitiatorSecure else ResponderSecure
  }

  predicate Knows(x: Party, y: Party, hello: Message, e: Endpoint) {
    && e.cfg == x.cfg && e.peerHello == Some(hello) && e.peerZid == y.cfg.zid && e.cache == x.cfg.retained
  }

  /** Before any key is derived. */
  predicate Keyless(e: Endpoint) {
    && e.keys == None && e.srtp == None && !e.isSecure && e.peerConfirm == None && e.peerDhPart == None && e.selfConfirm == None
    && e.zrtpSess == e.cfg.zrtpSess && !e.cacheMismatch
  }

  /** Ready to start as the initiator. */
  predicate Prepared(x: Party, y: Party, t: Script, e: Endpoint) {
    && Knows(x, y, t.responderHello, e) && Keyless(e) && e.peerCommit == None
    && e.algos == x.algos && e.pvs == x.cfg.pvs
    && e.selfDhPart == (if NonDh(x.Ka()) then None else Some(t.dhPart2))
    && (!NonDh(x.Ka()) ==> e.secrets == x.Secrets() && e.ids == t.initiatorIds)
    && (IsDiffieHellman(x.Ka()) ==> e.kaAlgo == x.Ka() && e.kaContext == Some(DhKey(x.cfg.randoms.dhPrivate)))
  }

  predicate IsGreeted(x: Party, y: Party, t: Script, e: Endpoint) {
    Prepared(x, y, t, e) && e.state == WaitingForHelloAck && e.role == Initiator && e.selfCommit == None
  }

  predicate IsCommitting(x: Party, y: Party, t: Script, e: Endpoint) {
    && Prepared(x, y, t, e) && e.state == SendingCommit && e.role == Initiator && e.selfCommit == Some(t.commit)
    && (IsKem(x.Ka()) ==> e.kaAlgo == x.Ka() && e.kaContext == Some(KemKeyPair(x.algos.hash, x.cfg.randoms.kemSeed)))
  }

  predicate IsResponding(x: Party, y: Party, u: Script, e: Endpoint) {
    && Knows(x, y, u.initiatorHello, e) && Keyless(e) && !NonDh(y.Ka())
    && e.state == ResponderSendingDhPart1 && e.role == Responder && e.algos == y.algos && e.pvs == x.cfg.pvs
    && e.peerCommit == Some(u.commit) && e.selfDhPart == Some(u.dhPart1)
    && e.secrets == x.Secrets() && e.ids == u.responderIds && e.kaAlgo == y.Ka()
    && e.kaContext == Some(if IsDiffieHellman(y.Ka()) then DhKey(x.cfg.randoms.dhPrivate) else KemShared(u.shared))
  }

  /** The keys of the script of initiator i and responder r are derived. The
      context of the session key is set with it, out of the multistream mode. */
  predicate Keyed(i: Party, r: Party, t: Script, e: Endpoint) {
    && e.algos == i.algos && e.kdfContext == Some(t.kdfContext) && e.zrtpSess == t.sessionKey && e.keys == Some(t.keys)
    && (!NonDh(i.Ka()) ==> e.zrtpSessContext == r.cfg.zid)
  }

  predicate IsInitiating(x: Party, y: Party, t: Script, e: Endpoint) {
    && Knows(x, y, t.responderHello, e) && Keyed(x, y, t, e) && !NonDh(x.Ka())
    && e.state == InitiatorSendingDhPart2 && e.role == Initiator
    && e.selfDhPart == Some(t.dhPart2) && e.peerDhPart == Some(t.dhPart1)
    && e.s0 == Some(t.s0) && e.srtp == None && !e.isSecure
    && e.secrets.retained == t.initiatorMatch.secrets
    && e.cacheMismatch == Mismatched(x, x, y) && e.pvs == (x.cfg.pvs && !e.cacheMismatch)
  }

  predicate IsInitiatorConfirming(x: Party, y: Party, t: Script, e: Endpoint) {
    && Knows(x, y, t.responderHello, e) && Keyed(x, y, t, e)
    && e.state == InitiatorSendingConfirm2 && e.role == Initiator
    && e.peerConfirm == Some(t.confirm1) && e.selfConfirm == Some(t.confirm2) && e.peerH0 == y.cfg.h0
    && e.s0 == Some(t.s0) && e.srtp == Some(t.initiatorSrtp) && !e.isSecure
    && (!NonDh(x.Ka()) ==> e.secrets.retained == t.initiatorMatch.secrets)
    && e.cacheMismatch == Mismatched(x, x, y)
  }

  predicate IsResponderConfirming(x: Party, y: Party, u: Script, e: Endpoint) {
    && Knows(x, y, u.initiatorHello, e) && Keyed(y, x, u, e)
    && e.state == ResponderSendingConfirm1 && e.role == Responder
    && e.peerCommit == Some(u.commit)
    && (!NonDh(y.Ka()) ==> e.peerDhPart == Some(u.dhPart2) && e.secrets.retained == u.responderMatch.secrets)
    && e.selfConfirm == Some(u.confirm1)
    && e.s0 == Some(u.s0) && e.srtp == None && !e.isSecure
    && e.cacheMismatch == Mismatched(x, y, x)
  }

  /** x is secure under the script of initiator i, matched being what its own
      comparison of identifiers left. */
  predicate IsSecureEnd(x: Party, y: Party, i: Party, r: Party, t: Script, matched: Match, e: Endpoint) {
    && e.cfg == x.cfg && Keyed(i, r, t, e) && e.state == Secure && e.isSecure && e.peerH0 == y.cfg.h0
    && e.cacheMismatch == Mismatched(x, i, r)
    && e.s0 == (if e.cacheMismatch then Some(t.s0) else None)
    && e.cache == (if NonDh(i.Ka()) then x.cfg.retained else Updated(x.cfg.retained, matched, t.newRs1, false))
  }

  predicate IsInitiatorSecure(x: Party, y: Party, t: Script, e: Endpoint) {
    && IsSecureEnd(x, y, x, y, t, t.initiatorMatch, e)
    && e.role == Initiator && e.peerConfirm == Some(t.confirm1) && e.srtp == Some(t.initiatorSrtp)
  }

  predicate IsResponderSecure(x: Party, y: Party, u: Script, e: Endpoint) {
    && IsSecureEnd(x, y, y, x, u, u.responderMatch, e)
    && e.role == Responder && e.peerConfirm == Some(u.confirm2) && e.srtp == Some(u.responderSrtp)
  }

  /** x is where its state says, holding exactly what that stage calls for: every
      packet and key its state function uses is there. */
  predicate AtStage(x: Party, y: Party, t: Script, u: Script, e: Endpoint) {
    match StageOf(e)
    case Discovering => e == Start(x.cfg)
    case HelloAcked => e == Start(x.cfg).(state := WaitingForHello)
    case Greeted => IsGreeted(x, y, t, e)
    case Committing => IsCommitting(x, y, t, e)
    case Initiating => IsInitiating(x, y, t, e)
    case InitiatorConfirming => IsInitiatorConfirming(x, y, t, e)
    case InitiatorSecure => IsInitiatorSecure(x, y, t, e)
    case Responding => IsResponding(x, y, u, e)
    case ResponderConfirming => IsResponderConfirming(x, y, u, e)
    case ResponderSecure => IsResponderSecure(x, y, u, e)
  }
}
