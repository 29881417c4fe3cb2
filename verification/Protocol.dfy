/** One end of a ZRTP channel: the state functions of src/stateMachine.c, with the
    hash chain and MAC checks of bzrtp_packetParser and the packet contents of
    bzrtp_createZrtpPacket (src/packetParser.c), as functions from a state and an
    event to the next state, the messages sent and the code returned.

    What the C code keeps behind pointers that may be NULL is an Option here, and
    following a NULL pointer is the outcome Fault. */
module Protocol {
  import opened Octets
  import opened Negotiation
  import opened Agreement
  import opened RetainedSecrets
  import opened Messages

  const ERROR_INVALIDCONTEXT := 0x0004
  const ERROR_MULTICHANNELNOTSUPPORTEDBYPEER := 0x0008
  const CREATE_ERROR_UNABLETOCREATECRYPTOCONTEXT := 0x0a02
  const BUILDER_ERROR_INVALIDCONTEXT := 0x5010
  const PARSER_ERROR_INVALIDMESSAGE := 0xa008
  const PARSER_ERROR_INVALIDCONTEXT := 0xa010
  const PARSER_ERROR_UNMATCHINGCONFIRMMAC := 0xa020
  const PARSER_ERROR_UNMATCHINGHASHCHAIN := 0xa080
  const PARSER_ERROR_UNMATCHINGMAC := 0xa100
  const PARSER_ERROR_UNEXPECTEDMESSAGE := 0xa200
  const PARSER_ERROR_UNMATCHINGHVI := 0xa400
  const ERROR_UNSUPPORTEDZRTPVERSION := 0xe001
  const ERROR_UNMATCHINGPACKETREPETITION := 0xe002

  /** The octets of "1.10", "BZRTPv1.1" and "ZRTP-HMAC-KDF". */
  const ZRTP_VERSION: Bytes := [0x31, 0x2e, 0x31, 0x30]
  const ZRTP_CLIENT_IDENTIFIER: Bytes := [0x42, 0x5a, 0x52, 0x54, 0x50, 0x76, 0x31, 0x2e, 0x31, 0, 0, 0, 0, 0, 0, 0]
  const ZRTP_HMAC_KDF: Bytes := [0x5a, 0x52, 0x54, 0x50, 0x2d, 0x48, 0x4d, 0x41, 0x43, 0x2d, 0x4b, 0x44, 0x46]

  const KEMPART2_NONCE_SIZE := 16
  const RETAINED_SECRET_LENGTH := 32

  // ---------------------------------------------------------------------
  // Data

  datatype State =
    | DiscoveryInit | WaitingForHello | WaitingForHelloAck | SendingCommit
    | ResponderSendingDhPart1 | InitiatorSendingDhPart2
    | ResponderSendingConfirm1 | InitiatorSendingConfirm2
    | Secure

  datatype Role = Initiator | Responder

  /** The values an end draws from its random generator, each used for one
      purpose. */
  datatype Randoms = Randoms(
    dhPrivate: Bytes, kemSeed: Bytes, kemCoins: Bytes, kemNonce: Bytes, commitNonce: Bytes, confirmIv: Bytes,
    initiatorIds: SecretIds, responderIds: SecretIds, initiatorPbx: Bytes, responderPbx: Bytes,
    initiatorAux: Bytes, responderAux: Bytes)

  /** What does not change while a channel runs. retained, aux, pbx and pvs are
      what the cache associates with the peer's ZID. */
  datatype Config = Config(
    zid: Bytes, h0: Bytes, isMainChannel: bool, lists: AlgoLists,
    retained: Retained, aux: Option<Bytes>, pbx: Option<Bytes>, pvs: bool, transientAux: Option<Bytes>,
    zrtpSess: Option<Bytes>, randoms: Randoms)

  /** The secrets of the context's cachedSecret and the identifiers of them. */
  datatype Secrets = Secrets(retained: Retained, aux: Option<Bytes>, pbx: Option<Bytes>)

  datatype Ids = Ids(initiator: SecretIds, responder: SecretIds, initiatorPbx: Bytes, responderPbx: Bytes,
                     initiatorAux: Bytes, responderAux: Bytes)

  datatype AuxStatus = AuxUnset | AuxMatch | AuxMismatch

  /** The context's keyAgreementContext. */
  datatype KaContext = DhKey(private: Bytes) | KemKeyPair(hash: byte, seed: Bytes) | KemShared(secret: Bytes)

  datatype Keys = Keys(mackeyi: Bytes, mackeyr: Bytes, zrtpkeyi: Bytes, zrtpkeyr: Bytes)

  datatype Srtp = Srtp(selfKey: Bytes, selfSalt: Bytes, peerKey: Bytes, peerSalt: Bytes, sasHash: Option<Bytes>)

  datatype Endpoint = Endpoint(
    cfg: Config,
    state: State,
    role: Role,
    algos: Algos,
    selfCommit: Option<Message>, selfDhPart: Option<Message>, selfConfirm: Option<Message>,
    peerHello: Option<Message>, peerCommit: Option<Message>, peerDhPart: Option<Message>, peerConfirm: Option<Message>,
    peerZid: Bytes, peerH0: Bytes,
    secrets: Secrets, pvs: bool, ids: Ids, cacheMismatch: bool, auxStatus: AuxStatus,
    kaAlgo: byte, kaContext: Option<KaContext>,
    kdfContext: Option<Bytes>, s0: Option<Bytes>, zrtpSess: Option<Bytes>, zrtpSessContext: Bytes,
    keys: Option<Keys>, srtp: Option<Srtp>,
    isSecure: bool, contextIsSecure: bool, peerPvs: bool,
    cache: Retained)

  datatype Ret = Done | Refused(code: int) | Fault

  datatype Outcome = Outcome(next: Endpoint, sent: seq<Message>, ret: Ret)

  function Refuse(e: Endpoint, code: int): Outcome {
    Outcome(e, [], Refused(code))
  }

  /** bzrtp_sendPacket on a stored packet. */
  function Send(e: Endpoint, packet: Option<Message>): Outcome {
    if packet.Some? then Outcome(e, [packet.value], Done) else Outcome(e, [], Fault)
  }

  // ---------------------------------------------------------------------
  // Hash chain, lengths

  function H1(c: Crypto, cfg: Config): Bytes { c.sha256(cfg.h0) }
  function H2(c: Crypto, cfg: Config): Bytes { c.sha256(H1(c, cfg)) }
  function H3(c: Crypto, cfg: Config): Bytes { c.sha256(H2(c, cfg)) }

  function HashLength(hash: byte): nat {
    if hash == HASH_S256 then 32 else if hash == HASH_S384 then 48 else if hash == HASH_S512 then 64 else 0
  }

  function CipherKeyLength(cipher: byte): nat {
    if cipher == CIPHER_AES1 then 16 else if cipher == CIPHER_AES3 then 32 else 0
  }

  function SrtpSaltLength(authTag: byte): nat {
    if authTag == AUTHTAG_GCM then 12 else 14
  }

  function RoundToWord(n: nat): nat {
    if n % 4 == 0 then n else n + 4 - n % 4
  }

  function DhPublicLength(algo: byte): nat {
    if algo == KEYAGREEMENT_DH3K then 384
    else if algo == KEYAGREEMENT_DH2K then 256
    else if algo == KEYAGREEMENT_X255 then 32
    else if algo == KEYAGREEMENT_X448 then 56
    else if algo == KEYAGREEMENT_EC25 then 64
    else if algo == KEYAGREEMENT_EC38 then 96
    else if algo == KEYAGREEMENT_EC52 then 132
    else 0
  }

  /** bzrtp_computeKeyAgreementPublicValueLength for the two DHPart messages. */
  function DhPartValueLength(c: Crypto, algo: byte, first: bool): nat {
    if DhPublicLength(algo) != 0 then DhPublicLength(algo)
    else if first then RoundToWord(c.kemCipherTextLength(algo))
    else KEMPART2_NONCE_SIZE
  }

  /** bzrtp_computeCommitMessageVariableLength. */
  function CommitVariableLength(c: Crypto, algo: byte): nat {
    if algo == KEYAGREEMENT_PRSH then 24
    else if algo == KEYAGREEMENT_MULT then 16
    else if IsKem(algo) then 32 + RoundToWord(c.kemPublicLength(algo))
    else if DhPublicLength(algo) != 0 then 32
    else 0
  }

  predicate NonDh(keyAgreement: byte) {
    keyAgreement == KEYAGREEMENT_PRSH || keyAgreement == KEYAGREEMENT_MULT
  }

  /** The value part of a Commit fills the length its key agreement calls for. */
  predicate CommitLengthMatches(c: Crypto, commit: Commit) {
    var ka := commit.algos.keyAgreement;
    if NonDh(ka) then |commit.nonce| == 16 && commit.hvi == [] && commit.pv == []
    else |commit.hvi| == 32 && commit.nonce == [] && |commit.pv| == CommitVariableLength(c, ka) - 32
  }

  // ---------------------------------------------------------------------
  // Packets an end creates

  function SelfHello(c: Crypto, cfg: Config): Message {
    Sign(c, H2(c, cfg), HelloBody(Hello(ZRTP_VERSION, ZRTP_CLIENT_IDENTIFIER, H3(c, cfg), cfg.zid, false, false, false, cfg.lists)))
  }

  function DhPart2Packet(c: Crypto, cfg: Config, ids: Ids, pv: Bytes): Message {
    Sign(c, cfg.h0, DhPart2Body(DhPart(H1(c, cfg), ids.initiator.rs1, ids.initiator.rs2, ids.initiatorAux, ids.initiatorPbx, pv)))
  }

  function DhPart1Packet(c: Crypto, cfg: Config, ids: Ids, pv: Bytes): Message {
    Sign(c, cfg.h0, DhPart1Body(DhPart(H1(c, cfg), ids.responder.rs1, ids.responder.rs2, ids.responderAux, ids.responderPbx, pv)))
  }

  function CommitPacket(c: Crypto, cfg: Config, algos: Algos, hvi: Bytes, pv: Bytes, nonce: Bytes): Message {
    Sign(c, H1(c, cfg), CommitBody(Commit(H2(c, cfg), cfg.zid, algos, hvi, pv, nonce)))
  }

  /** hash(initiator's DHPart2 || responder's Hello), truncated to 256 bits. */
  function Hvi(c: Crypto, hash: byte, dhPart2: Message, hello: Message): Bytes
    requires dhPart2.Signed? && hello.Signed?
  {
    c.hash(hash, Wire(c, dhPart2) + Wire(c, hello), 32)
  }

  function ConfirmPacket(c: Crypto, cfg: Config, algos: Algos, pvs: bool, mackey: Bytes, zrtpkey: Bytes): Confirm {
    var body := ConfirmBody(cfg.h0, 0, false, pvs, false, false, 0xFFFF_FFFF, [], []);
    var cipherText := c.encrypt(algos.cipher, zrtpkey, cfg.randoms.confirmIv, c.plain(body));
    Confirm(c.hmac(algos.hash, mackey, cipherText), cfg.randoms.confirmIv, cipherText)
  }

  // ---------------------------------------------------------------------
  // Keys

  function Sized(secret: Option<Bytes>): Bytes {
    if secret.Some? then Word32(|secret.value|) + secret.value else Word32(0)
  }

  /** ZIDi || ZIDr || total_hash. */
  function KdfContext(c: Crypto, hash: byte, zidi: Bytes, zidr: Bytes, hashed: Bytes): Bytes {
    zidi + zidr + c.hash(hash, hashed, HashLength(hash))
  }

  function S0(c: Crypto, hash: byte, shared: Bytes, kdfContext: Bytes, s1: Option<Bytes>, s2: Option<Bytes>, s3: Option<Bytes>): Bytes {
    c.hash(hash, [0, 0, 0, 1] + shared + ZRTP_HMAC_KDF + kdfContext + Sized(s1) + Sized(s2) + Sized(s3), HashLength(hash))
  }

  function MultiStreamS0(c: Crypto, hash: byte, zrtpSess: Bytes, kdfContext: Bytes): Bytes {
    c.kdf(hash, zrtpSess, ZrtpMsk, kdfContext, HashLength(hash))
  }

  function SessionKey(c: Crypto, hash: byte, s0: Bytes, kdfContext: Bytes): Bytes {
    c.kdf(hash, s0, ZrtpSessionKey, kdfContext, HashLength(hash))
  }

  /** bzrtp_deriveKeysFromS0. */
  function DerivedKeys(c: Crypto, algos: Algos, s0: Bytes, kdfContext: Bytes): Keys {
    Keys(c.kdf(algos.hash, s0, InitiatorHmacKey, kdfContext, HashLength(algos.hash)),
         c.kdf(algos.hash, s0, ResponderHmacKey, kdfContext, HashLength(algos.hash)),
         c.kdf(algos.hash, s0, InitiatorZrtpKey, kdfContext, CipherKeyLength(algos.cipher)),
         c.kdf(algos.hash, s0, ResponderZrtpKey, kdfContext, CipherKeyLength(algos.cipher)))
  }

  /** bzrtp_deriveSrtpKeysFromS0: the initiator encrypts with the initiator's key,
      the responder with the responder's. */
  function DerivedSrtp(c: Crypto, algos: Algos, role: Role, s0: Bytes, kdfContext: Bytes): Srtp {
    var keyi := c.kdf(algos.hash, s0, InitiatorSrtpMasterKey, kdfContext, CipherKeyLength(algos.cipher));
    var salti := c.kdf(algos.hash, s0, InitiatorSrtpMasterSalt, kdfContext, SrtpSaltLength(algos.authTag));
    var keyr := c.kdf(algos.hash, s0, ResponderSrtpMasterKey, kdfContext, CipherKeyLength(algos.cipher));
    var saltr := c.kdf(algos.hash, s0, ResponderSrtpMasterSalt, kdfContext, SrtpSaltLength(algos.authTag));
    var sas := if algos.keyAgreement == KEYAGREEMENT_MULT then None else Some(c.kdf(algos.hash, s0, SasLabel, kdfContext, 32));
    if role == Initiator then Srtp(keyi, salti, keyr, saltr, sas) else Srtp(keyr, saltr, keyi, salti, sas)
  }

  /** The key agreement result in the context: what bctbx computes from the own
      private value and the peer's public value. */
  function SharedValue(c: Crypto, kaAlgo: byte, context: KaContext, peerValue: Bytes): Bytes {
    match context
    case DhKey(private) => c.dhShared(kaAlgo, private, peerValue)
    case KemKeyPair(hash, seed) => c.kemDecaps(kaAlgo, hash, seed, peerValue)
    case KemShared(secret) => secret
  }

  /** bzrtp_computeS0DHMMode, the peer's DHPart being stored. None is a NULL
      pointer followed. */
  function ComputeS0Dh(c: Crypto, e: Endpoint): Option<Endpoint> {
    var (hello, commit, dhPart1, dhPart2) :=
      if e.role == Responder then (Some(SelfHello(c, e.cfg)), e.peerCommit, e.selfDhPart, e.peerDhPart)
      else (e.peerHello, e.selfCommit, e.peerDhPart, e.selfDhPart);
    if !(IsSigned(hello) && IsSigned(commit) && IsSigned(dhPart1) && IsSigned(dhPart2)) then None
    else if e.kaContext.None? || !IsDhPart(e.peerDhPart) then None
    else
      var (zidi, zidr) := if e.role == Responder then (e.peerZid, e.cfg.zid) else (e.cfg.zid, e.peerZid);
      var hashed := Wire(c, hello.value) + Wire(c, commit.value) + Wire(c, dhPart1.value) + Wire(c, dhPart2.value);
      var kdfContext := KdfContext(c, e.algos.hash, zidi, zidr, hashed);
      var shared := SharedValue(c, e.kaAlgo, e.kaContext.value, e.peerDhPart.value.body.dhPart.pv);
      var s0 := S0(c, e.algos.hash, shared, kdfContext, S1(e.secrets.retained), e.secrets.aux, e.secrets.pbx);
      Some(e.(kdfContext := Some(kdfContext), s0 := Some(s0),
              zrtpSess := Some(SessionKey(c, e.algos.hash, s0, kdfContext)),
              zrtpSessContext := if e.role == Initiator then e.peerZid else e.cfg.zid,
              kaAlgo := UNSET_ALGO, kaContext := None,
              keys := Some(DerivedKeys(c, e.algos, s0, kdfContext))))
  }

  predicate IsSigned(packet: Option<Message>) {
    packet.Some? && packet.value.Signed?
  }

  predicate IsDhPart(packet: Option<Message>) {
    IsSigned(packet) && (packet.value.body.DhPart1Body? || packet.value.body.DhPart2Body?)
  }

  /** bzrtp_computeS0MultiStreamMode. */
  function ComputeS0Mult(c: Crypto, e: Endpoint): Option<Endpoint> {
    var (hello, commit) := if e.role == Responder then (Some(SelfHello(c, e.cfg)), e.peerCommit) else (e.peerHello, e.selfCommit);
    if !(IsSigned(hello) && IsSigned(commit)) || e.zrtpSess.None? then None
    else
      var (zidi, zidr) := if e.role == Responder then (e.peerZid, e.cfg.zid) else (e.cfg.zid, e.peerZid);
      var kdfContext := KdfContext(c, e.algos.hash, zidi, zidr, Wire(c, hello.value) + Wire(c, commit.value));
      var s0 := MultiStreamS0(c, e.algos.hash, e.zrtpSess.value, kdfContext);
      Some(e.(kdfContext := Some(kdfContext), s0 := Some(s0), keys := Some(DerivedKeys(c, e.algos, s0, kdfContext))))
  }

  /** bzrtp_deriveSrtpKeysFromS0 on the channel. */
  function DeriveSrtp(c: Crypto, e: Endpoint): Option<Endpoint> {
    if e.s0.None? || e.kdfContext.None? then None
    else Some(e.(srtp := Some(DerivedSrtp(c, e.algos, e.role, e.s0.value, e.kdfContext.value))))
  }

  /** bzrtp_updateCachedSecrets. */
  function UpdateCachedSecrets(c: Crypto, e: Endpoint): Option<Endpoint> {
    if e.algos.keyAgreement == KEYAGREEMENT_MULT then Some(e.(s0 := None))
    else if e.cacheMismatch then Some(e)
    else if e.s0.None? || e.kdfContext.None? then None
    else
      var rs1 := c.kdf(e.algos.hash, e.s0.value, RetainedSecretLabel, e.kdfContext.value, RETAINED_SECRET_LENGTH);
      Some(e.(cache := Updated(e.cache, Match(e.secrets.retained, false), rs1, false), s0 := None,
              secrets := Secrets(Retained(None, None), None, None)))
  }

  // ---------------------------------------------------------------------
  // Parser checks: 0 or the error returned

  function ParseCommit(c: Crypto, e: Endpoint, commit: Commit): int {
    if !IsHello(e.peerHello) then PARSER_ERROR_UNEXPECTEDMESSAGE
    else if c.sha256(commit.h2) != e.peerHello.value.body.hello.h3 then PARSER_ERROR_UNMATCHINGHASHCHAIN
    else if !SignedWith(c, commit.h2, e.peerHello.value) then PARSER_ERROR_UNMATCHINGMAC
    else if CommitVariableLength(c, commit.algos.keyAgreement) == 0 || !CommitLengthMatches(c, commit) then PARSER_ERROR_INVALIDMESSAGE
    else 0
  }

  predicate IsHello(packet: Option<Message>) {
    IsSigned(packet) && packet.value.body.HelloBody?
  }

  predicate IsCommit(packet: Option<Message>) {
    IsSigned(packet) && packet.value.body.CommitBody?
  }

  function ParseDhPart(c: Crypto, e: Endpoint, m: Message, first: bool): int
    requires IsDhPart(Some(m))
  {
    var dhPart := m.body.dhPart;
    var length := DhPartValueLength(c, e.algos.keyAgreement, first);
    if length == 0 then PARSER_ERROR_INVALIDCONTEXT
    else if |dhPart.pv| != length then PARSER_ERROR_INVALIDMESSAGE
    else if e.role == Responder then
      if !IsCommit(e.peerCommit) then PARSER_ERROR_UNEXPECTEDMESSAGE
      else if c.sha256(dhPart.h1) != e.peerCommit.value.body.commit.h2 then PARSER_ERROR_UNMATCHINGHASHCHAIN
      else if !SignedWith(c, dhPart.h1, e.peerCommit.value) then PARSER_ERROR_UNMATCHINGMAC
      else if Hvi(c, e.algos.hash, m, SelfHello(c, e.cfg)) != e.peerCommit.value.body.commit.hvi then PARSER_ERROR_UNMATCHINGHVI
      else 0
    else
      if !IsHello(e.peerHello) then PARSER_ERROR_UNEXPECTEDMESSAGE
      else if c.sha256(c.sha256(dhPart.h1)) != e.peerHello.value.body.hello.h3 then PARSER_ERROR_UNMATCHINGHASHCHAIN
      else if !SignedWith(c, c.sha256(dhPart.h1), e.peerHello.value) then PARSER_ERROR_UNMATCHINGMAC
      else 0
  }

  /** The plain part of a Confirm the peer sent, as this end decrypts it. */
  function OpenedConfirm(c: Crypto, e: Endpoint, confirm: Confirm): ConfirmBody
    requires e.keys.Some?
  {
    var key := if e.role == Responder then e.keys.value.zrtpkeyi else e.keys.value.zrtpkeyr;
    c.readPlain(c.decrypt(e.algos.cipher, key, confirm.iv, confirm.cipherText))
  }

  function ParseConfirm(c: Crypto, e: Endpoint, confirm: Confirm): int {
    if e.keys.None? then PARSER_ERROR_INVALIDCONTEXT
    else
      var mackey := if e.role == Responder then e.keys.value.mackeyi else e.keys.value.mackeyr;
      if c.hmac(e.algos.hash, mackey, confirm.cipherText) != confirm.mac then PARSER_ERROR_UNMATCHINGCONFIRMMAC
      else CheckH0(c, e, OpenedConfirm(c, e, confirm).h0)
  }

  /** The end of the hash chain, checked on reception of a Confirm. */
  function CheckH0(c: Crypto, e: Endpoint, h0: Bytes): int {
    var h1 := c.sha256(h0);
    if NonDh(e.algos.keyAgreement) then
      if e.role == Responder then
        if !IsCommit(e.peerCommit) then PARSER_ERROR_UNEXPECTEDMESSAGE
        else if c.sha256(h1) != e.peerCommit.value.body.commit.h2 then PARSER_ERROR_UNMATCHINGHASHCHAIN
        else if !SignedWith(c, h1, e.peerCommit.value) then PARSER_ERROR_UNMATCHINGMAC
        else 0
      else
        if !IsHello(e.peerHello) then PARSER_ERROR_UNEXPECTEDMESSAGE
        else if c.sha256(c.sha256(h1)) != e.peerHello.value.body.hello.h3 then PARSER_ERROR_UNMATCHINGHASHCHAIN
        else if !SignedWith(c, c.sha256(h1), e.peerHello.value) then PARSER_ERROR_UNMATCHINGMAC
        else 0
    else
      if !IsDhPart(e.peerDhPart) then PARSER_ERROR_UNEXPECTEDMESSAGE
      else if h1 != e.peerDhPart.value.body.dhPart.h1 then PARSER_ERROR_UNMATCHINGHASHCHAIN
      else if !SignedWith(c, h0, e.peerDhPart.value) then PARSER_ERROR_UNMATCHINGMAC
      else 0
  }

  // ---------------------------------------------------------------------
  // Helpers of the state functions

  /** The identifiers of the retained secrets under the hash this end prefers. */
  function RetainedIds(c: Crypto, hash: byte, retained: Retained, purpose: Bytes, absent: SecretIds): SecretIds {
    SecretIds(SecretId(c, hash, retained.rs1, purpose, absent.rs1), SecretId(c, hash, retained.rs2, purpose, absent.rs2))
  }

  function SecretId(c: Crypto, hash: byte, secret: Option<Bytes>, purpose: Bytes, absent: Bytes): Bytes {
    if secret.Some? then c.hmac(hash, secret.value, purpose) else absent
  }

  /** The octets of "Initiator" and "Responder". */
  const INITIATOR_LABEL: Bytes := [0x49, 0x6e, 0x69, 0x74, 0x69, 0x61, 0x74, 0x6f, 0x72]
  const RESPONDER_LABEL: Bytes := [0x52, 0x65, 0x73, 0x70, 0x6f, 0x6e, 0x64, 0x65, 0x72]

  function ComputeIds(c: Crypto, cfg: Config, hash: byte, secrets: Secrets, peerH3: Bytes): Ids {
    var r := cfg.randoms;
    Ids(RetainedIds(c, hash, secrets.retained, INITIATOR_LABEL, r.initiatorIds),
        RetainedIds(c, hash, secrets.retained, RESPONDER_LABEL, r.responderIds),
        SecretId(c, hash, secrets.pbx, INITIATOR_LABEL, r.initiatorPbx),
        SecretId(c, hash, secrets.pbx, RESPONDER_LABEL, r.responderPbx),
        SecretId(c, hash, secrets.aux, H3(c, cfg), r.initiatorAux),
        SecretId(c, hash, secrets.aux, peerH3, r.responderAux))
  }

  function WithTransient(aux: Option<Bytes>, transient: Option<Bytes>): Option<Bytes> {
    if transient.None? then aux
    else if aux.None? then transient
    else Some(aux.value + transient.value)
  }

  /** The session secrets once a Hello arrived: the cache is read unless the
      context already has an rs1. */
  function LoadSecrets(e: Endpoint): Secrets {
    var s := if e.secrets.retained.rs1.None? then Secrets(e.cfg.retained, e.cfg.aux, e.cfg.pbx) else e.secrets;
    s.(aux := WithTransient(s.aux, e.cfg.transientAux))
  }

  /** bzrtp_responseToHelloMessage. */
  function ResponseToHello(c: Crypto, e: Endpoint, m: Message): Outcome
    requires IsHello(Some(m))
  {
    var hello := m.body.hello;
    var lists := Received(hello.lists);
    if |hello.version| < 3 || hello.version[..3] != ZRTP_VERSION[..3] then Refuse(e, ERROR_UNSUPPORTEDZRTPVERSION)
    else
      var (ret, algos) := Agree(e.cfg.lists, lists, e.algos);
      if ret != 0 then Refuse(e.(algos := algos), ret) else GreetPeer(c, e.(algos := algos), m, lists)
  }

  /** bzrtp_responseToHelloMessage once the algorithms are chosen. */
  function GreetPeer(c: Crypto, e: Endpoint, m: Message, lists: AlgoLists): Outcome
    requires IsHello(Some(m))
  {
    var hello := m.body.hello;
    var known := e.(peerZid := hello.zid, peerHello := Some(m));
    if !e.cfg.isMainChannel && e.zrtpSess.Some? then
      if KEYAGREEMENT_MULT in lists.keyAgreement then
        Outcome(known.(algos := e.algos.(keyAgreement := KEYAGREEMENT_MULT)), [HelloAck], Done)
      else Refuse(known, ERROR_MULTICHANNELNOTSUPPORTEDBYPEER)
    else PrepareDhPart2(c, WithLoadedSecrets(c, known, hello.h3))
  }

  function WithLoadedSecrets(c: Crypto, e: Endpoint, peerH3: Bytes): Endpoint {
    var secrets := LoadSecrets(e);
    e.(secrets := secrets, pvs := if e.secrets.retained.rs1.None? then e.cfg.pvs else e.pvs,
       ids := ComputeIds(c, e.cfg, e.algos.hash, secrets, peerH3))
  }

  /** The end of bzrtp_responseToHelloMessage out of the multistream mode: the
      DHPart2 is created, assuming the initiator's role. */
  function PrepareDhPart2(c: Crypto, e: Endpoint): Outcome {
    var ka, r := e.algos.keyAgreement, e.cfg.randoms;
    if NonDh(ka) then Outcome(e, [HelloAck], Done)
    else if IsDiffieHellman(ka) then
      Outcome(e.(selfDhPart := Some(DhPart2Packet(c, e.cfg, e.ids, c.dhPublic(ka, r.dhPrivate))), kaAlgo := ka, kaContext := Some(DhKey(r.dhPrivate))),
              [HelloAck], Done)
    else if IsKem(ka) then
      Outcome(e.(selfDhPart := Some(DhPart2Packet(c, e.cfg, e.ids, r.kemNonce))), [HelloAck], Done)
    else Refuse(e, CREATE_ERROR_UNABLETOCREATECRYPTOCONTEXT)
  }

  /** A responder's two auxiliary secret identifiers change places: they depend
      on the ends' H3 and not on a role name. */
  function SwapAux(ids: Ids): Ids {
    ids.(initiatorAux := ids.responderAux, responderAux := ids.initiatorAux)
  }

  /** bzrtp_turnIntoResponder on a parsed Commit. */
  function TurnIntoResponder(c: Crypto, e: Endpoint, m: Message): Outcome
    requires IsCommit(Some(m))
  {
    var commit := m.body.commit;
    var ka := commit.algos.keyAgreement;
    var responder := e.(peerCommit := Some(m), role := Responder, algos := commit.algos);
    if e.selfDhPart.None? then EnterResponderState(c, responder)
    else
      var swapped := responder.(ids := SwapAux(e.ids));
      if IsKem(ka) then EnterResponderState(c, WithKemAnswer(c, swapped, commit))
      else
        var length := DhPartValueLength(c, ka, true);
        if !IsDhPart(e.selfDhPart) || length > |e.selfDhPart.value.body.dhPart.pv| then Outcome(swapped, [], Fault)
        else if length == 0 then Refuse(swapped, BUILDER_ERROR_INVALIDCONTEXT)
        else
          EnterResponderState(c, WithDhAnswer(c, swapped, e.selfDhPart.value.body.dhPart.pv[..length]))
  }

  /** The DHPart1 of a KEM mode: the encapsulation of a new secret under the
      public key the Commit carries. */
  function WithKemAnswer(c: Crypto, e: Endpoint, commit: Commit): Endpoint {
    var ka := commit.algos.keyAgreement;
    var pv := c.kemCipherText(ka, commit.algos.hash, commit.pv, e.cfg.randoms.kemCoins);
    var secret := c.kemSecret(ka, commit.algos.hash, commit.pv, e.cfg.randoms.kemCoins);
    e.(selfDhPart := Some(DhPart1Packet(c, e.cfg, e.ids, pv)), kaAlgo := ka, kaContext := Some(KemShared(secret)))
  }

  /** The DHPart1 of a Diffie-Hellman mode: the DHPart2 rebuilt with the
      responder's identifiers. */
  function WithDhAnswer(c: Crypto, e: Endpoint, pv: Bytes): Endpoint {
    e.(selfDhPart := Some(DhPart1Packet(c, e.cfg, e.ids, pv)))
  }

  function EnterResponderState(c: Crypto, e: Endpoint): Outcome {
    if NonDh(e.algos.keyAgreement) then EnterResponderSendingConfirm1(c, e.(state := ResponderSendingConfirm1))
    else EnterResponderSendingDhPart1(e.(state := ResponderSendingDhPart1))
  }

  // ---------------------------------------------------------------------
  // State functions on an INIT event

  function EnterSendingCommit(c: Crypto, e: Endpoint): Outcome {
    var ka, r := e.algos.keyAgreement, e.cfg.randoms;
    if e.selfCommit.Some? then Outcome(e, [], Done)
    else if CommitVariableLength(c, ka) == 0 then Outcome(e, [], Done)
    else if NonDh(ka) then
      var commit := CommitPacket(c, e.cfg, e.algos, [], [], r.commitNonce);
      Outcome(e.(selfCommit := Some(commit)), [commit], Done)
    else if !IsSigned(e.selfDhPart) || !IsSigned(e.peerHello) then Outcome(e, [], Fault)
    else
      var hvi := Hvi(c, e.algos.hash, e.selfDhPart.value, e.peerHello.value);
      if IsKem(ka) then
        var commit := CommitPacket(c, e.cfg, e.algos, hvi, c.kemPublic(ka, e.algos.hash, r.kemSeed), []);
        Outcome(e.(selfCommit := Some(commit), kaAlgo := ka, kaContext := Some(KemKeyPair(e.algos.hash, r.kemSeed))), [commit], Done)
      else
        var commit := CommitPacket(c, e.cfg, e.algos, hvi, [], []);
        Outcome(e.(selfCommit := Some(commit)), [commit], Done)
  }

  function EnterResponderSendingDhPart1(e: Endpoint): Outcome {
    if e.selfDhPart.None? then Refuse(e, ERROR_INVALIDCONTEXT) else Send(e, e.selfDhPart)
  }

  function EnterInitiatorSendingDhPart2(e: Endpoint): Outcome {
    Send(e, e.selfDhPart)
  }

  function EnterResponderSendingConfirm1(c: Crypto, e: Endpoint): Outcome {
    if e.algos.keyAgreement == KEYAGREEMENT_MULT then
      if e.zrtpSess.None? then Refuse(e, ERROR_INVALIDCONTEXT)
      else
        var ready := ComputeS0Mult(c, e);
        if ready.None? then Outcome(e, [], Fault) else SendConfirm1(c, ready.value)
    else SendConfirm1(c, e)
  }

  function SendConfirm1(c: Crypto, e: Endpoint): Outcome {
    if e.keys.None? then
      Refuse(e, if e.algos.keyAgreement == KEYAGREEMENT_PRSH then BUILDER_ERROR_INVALIDCONTEXT else ERROR_INVALIDCONTEXT)
    else
      var confirm1 := Confirm1(ConfirmPacket(c, e.cfg, e.algos, e.pvs, e.keys.value.mackeyr, e.keys.value.zrtpkeyr));
      Outcome(e.(selfConfirm := Some(confirm1)), [confirm1], Done)
  }

  function EnterInitiatorSendingConfirm2(c: Crypto, e: Endpoint): Outcome {
    if e.keys.None? then Refuse(e, ERROR_INVALIDCONTEXT)
    else
      var confirm2 := Confirm2(ConfirmPacket(c, e.cfg, e.algos, e.pvs, e.keys.value.mackeyi, e.keys.value.zrtpkeyi));
      var built := e.(selfConfirm := Some(confirm2));
      var derived := DeriveSrtp(c, built);
      if derived.None? then Outcome(built, [], Fault) else Outcome(derived.value, [confirm2], Done)
  }

  function EnterSecure(e: Endpoint): Endpoint {
    e.(state := Secure, isSecure := true, contextIsSecure := e.contextIsSecure || e.algos.keyAgreement != KEYAGREEMENT_MULT)
  }

  // ---------------------------------------------------------------------
  // State functions on a message

  function OnDiscoveryInit(c: Crypto, e: Endpoint, m: Message): Outcome {
    if IsHello(Some(m)) then
      var o := ResponseToHello(c, e, m);
      if o.ret == Done then o.(next := o.next.(state := WaitingForHelloAck)) else o
    else if m.HelloAck? then Outcome(e.(state := WaitingForHello), [], Done)
    else Refuse(e, PARSER_ERROR_UNEXPECTEDMESSAGE)
  }

  function OnWaitingForHello(c: Crypto, e: Endpoint, m: Message): Outcome {
    if IsHello(Some(m)) then
      var o := ResponseToHello(c, e, m);
      if o.ret == Done then
        var p := EnterSendingCommit(c, o.next.(state := SendingCommit));
        p.(sent := o.sent + p.sent)
      else o
    else Refuse(e, PARSER_ERROR_UNEXPECTEDMESSAGE)
  }

  /** A message that repeats a stored packet octet for octet. */
  predicate Repeats(c: Crypto, m: Message, stored: Message) {
    if m.Signed? && stored.Signed? then Wire(c, m) == Wire(c, stored) else m == stored
  }

  /** The answer to a repeated packet, stored being what was received first. */
  function OnRepetition(c: Crypto, e: Endpoint, m: Message, stored: Option<Message>, answer: Outcome): Outcome {
    if stored.None? then Outcome(e, [], Fault)
    else if Repeats(c, m, stored.value) then answer
    else Refuse(e, ERROR_UNMATCHINGPACKETREPETITION)
  }

  function OnWaitingForHelloAck(c: Crypto, e: Endpoint, m: Message): Outcome {
    if IsHello(Some(m)) then OnRepetition(c, e, m, e.peerHello, Outcome(e, [HelloAck], Done))
    else if m.HelloAck? then EnterSendingCommit(c, e.(state := SendingCommit))
    else if IsCommit(Some(m)) then
      var ret := ParseCommit(c, e, m.body.commit);
      if ret != 0 then Refuse(e, ret) else TurnIntoResponder(c, e, m)
    else Refuse(e, PARSER_ERROR_UNEXPECTEDMESSAGE)
  }

  predicate Lower(a: Bytes, b: Bytes) {
    |a| == |b| && MemCmp(a, b) < 0
  }

  /** Commit contention, section 4.2 of RFC 6189: does self, who sent a Commit,
      give way to the peer's? */
  predicate GivesWay(self: Commit, peer: Commit, selfM: bool, peerM: bool) {
    var selfKa, peerKa := self.algos.keyAgreement, peer.algos.keyAgreement;
    if selfKa != peerKa then selfKa == KEYAGREEMENT_PRSH
    else if peerKa == KEYAGREEMENT_PRSH && (selfM || peerM) then selfM
    else if NonDh(selfKa) then Lower(self.nonce, peer.nonce)
    else Lower(self.hvi, peer.hvi)
  }

  function OnSendingCommit(c: Crypto, e: Endpoint, m: Message): Outcome {
    if m.Confirm1? then
      if !NonDh(e.algos.keyAgreement) then Refuse(e, PARSER_ERROR_UNEXPECTEDMESSAGE) else OnCommitConfirmed(c, e, m)
    else if m.Signed? && m.body.DhPart1Body? then
      if e.algos.keyAgreement == KEYAGREEMENT_PRSH then Refuse(e, PARSER_ERROR_UNEXPECTEDMESSAGE)
      else
        var ret := ParseDhPart(c, e, m, true);
        if ret != 0 then Refuse(e, ret) else OnDhPart1(c, e, m)
    else if IsCommit(Some(m)) then
      var ret := ParseCommit(c, e, m.body.commit);
      if ret != 0 then Refuse(e, ret)
      else Contention(c, e, m)
    else Refuse(e, PARSER_ERROR_UNEXPECTEDMESSAGE)
  }

  function Contention(c: Crypto, e: Endpoint, m: Message): Outcome
    requires IsCommit(Some(m))
  {
    if !IsCommit(e.selfCommit) || !IsHello(e.peerHello) then Outcome(e, [], Fault)
    else if GivesWay(e.selfCommit.value.body.commit, m.body.commit, false, e.peerHello.value.body.hello.m) then
      TurnIntoResponder(c, e.(role := Responder, selfCommit := None), m)
    else Outcome(e, [], Done)
  }

  /** Confirm1 received while sending Commits, in a mode without DHPart. */
  function OnCommitConfirmed(c: Crypto, e: Endpoint, m: Message): Outcome
    requires m.Confirm1?
  {
    var ready := if e.algos.keyAgreement == KEYAGREEMENT_MULT then ComputeS0Mult(c, e) else Some(e);
    if ready.None? then Outcome(e, [], Fault) else OnConfirm1(c, ready.value, m)
  }

  /** Confirm1, s0 being derived. */
  function OnConfirm1(c: Crypto, e: Endpoint, m: Message): Outcome
    requires m.Confirm1?
  {
    var ret := ParseConfirm(c, e, m.confirm);
    if ret != 0 || e.keys.None? then Refuse(e, ret)
    else
      var body := OpenedConfirm(c, e, m.confirm);
      EnterInitiatorSendingConfirm2(c, e.(peerH0 := body.h0, peerPvs := if NonDh(e.algos.keyAgreement) then e.peerPvs else body.v,
                                          peerConfirm := Some(m), state := InitiatorSendingConfirm2))
  }

  /** Auxiliary and pbx secrets are kept only if the peer has the same. */
  function MatchOther(secret: Option<Bytes>, selfId: Bytes, receivedId: Bytes): Option<Bytes> {
    if secret.Some? && selfId != receivedId then None else secret
  }

  function MatchStatus(secret: Option<Bytes>, selfId: Bytes, receivedId: Bytes, before: AuxStatus): AuxStatus {
    if secret.None? then before else if selfId != receivedId then AuxMismatch else AuxMatch
  }

  /** What the comparison of secret identifiers leaves in the context. */
  function WithMatched(e: Endpoint, retained: Match, auxId: Bytes, pbxId: Bytes, dhPart: DhPart): Endpoint {
    e.(secrets := Secrets(retained.secrets, MatchOther(e.secrets.aux, auxId, dhPart.auxId), MatchOther(e.secrets.pbx, pbxId, dhPart.pbxId)),
       auxStatus := MatchStatus(e.secrets.aux, auxId, dhPart.auxId, e.auxStatus),
       cacheMismatch := retained.mismatch, pvs := e.pvs && !retained.mismatch)
  }

  /** DHPart1 parsed by an end that sends Commits. */
  function OnDhPart1(c: Crypto, e: Endpoint, m: Message): Outcome
    requires IsDhPart(Some(m))
  {
    var dhPart := m.body.dhPart;
    var retained := InitiatorMatch(e.secrets.retained, e.cacheMismatch, e.ids.responder, SecretIds(dhPart.rs1Id, dhPart.rs2Id));
    var matched := WithMatched(e, retained, e.ids.responderAux, e.ids.responderPbx, dhPart);
    InitiatorKeyed(matched, ComputeS0Dh(c, matched.(peerDhPart := Some(m))))
  }

  function InitiatorKeyed(e: Endpoint, keyed: Option<Endpoint>): Outcome {
    if keyed.None? then Outcome(e, [], Fault)
    else EnterInitiatorSendingDhPart2(keyed.value.(state := InitiatorSendingDhPart2))
  }

  function OnResponderSendingDhPart1(c: Crypto, e: Endpoint, m: Message): Outcome {
    if e.selfDhPart.None? then Refuse(e, ERROR_INVALIDCONTEXT)
    else if IsCommit(Some(m)) then OnRepetition(c, e, m, e.peerCommit, Send(e, e.selfDhPart))
    else if m.Signed? && m.body.DhPart2Body? then
      var ret := ParseDhPart(c, e, m, false);
      if ret != 0 then Refuse(e, ret) else OnDhPart2(c, e, m)
    else Refuse(e, PARSER_ERROR_UNEXPECTEDMESSAGE)
  }

  /** DHPart2 parsed by the responder. */
  function OnDhPart2(c: Crypto, e: Endpoint, m: Message): Outcome
    requires IsDhPart(Some(m))
  {
    var dhPart := m.body.dhPart;
    var retained := ResponderMatch(e.secrets.retained, e.cacheMismatch, e.ids.initiator, SecretIds(dhPart.rs1Id, dhPart.rs2Id));
    var matched := WithMatched(e, retained, e.ids.initiatorAux, e.ids.initiatorPbx, dhPart);
    ResponderKeyed(c, matched, ComputeS0Dh(c, matched.(peerDhPart := Some(m))))
  }

  function ResponderKeyed(c: Crypto, e: Endpoint, keyed: Option<Endpoint>): Outcome {
    if keyed.None? then Outcome(e, [], Fault)
    else EnterResponderSendingConfirm1(c, keyed.value.(state := ResponderSendingConfirm1))
  }

  function OnInitiatorSendingDhPart2(c: Crypto, e: Endpoint, m: Message): Outcome {
    if m.Signed? && m.body.DhPart1Body? then OnRepetition(c, e, m, e.peerDhPart, Outcome(e, [], Done))
    else if m.Confirm1? then OnConfirm1(c, e, m)
    else Refuse(e, PARSER_ERROR_UNEXPECTEDMESSAGE)
  }

  function OnResponderSendingConfirm1(c: Crypto, e: Endpoint, m: Message): Outcome {
    if IsCommit(Some(m)) then
      if !NonDh(e.algos.keyAgreement) then Refuse(e, PARSER_ERROR_UNEXPECTEDMESSAGE)
      else OnRepetition(c, e, m, e.peerCommit, Send(e, e.selfConfirm))
    else if m.Signed? && m.body.DhPart2Body? then
      if NonDh(e.algos.keyAgreement) then Refuse(e, PARSER_ERROR_UNEXPECTEDMESSAGE)
      else OnRepetition(c, e, m, e.peerDhPart, Send(e, e.selfConfirm))
    else if m.Confirm2? then
      var ret := ParseConfirm(c, e, m.confirm);
      if ret != 0 || e.keys.None? then Refuse(e, ret) else OnConfirm2(c, e, m)
    else Refuse(e, PARSER_ERROR_UNEXPECTEDMESSAGE)
  }

  /** Confirm2 parsed by the responder. */
  function OnConfirm2(c: Crypto, e: Endpoint, m: Message): Outcome
    requires m.Confirm2? && e.keys.Some?
  {
    var body := OpenedConfirm(c, e, m.confirm);
    var confirmed := e.(peerH0 := body.h0, peerPvs := if e.algos.keyAgreement != KEYAGREEMENT_MULT then body.v else e.peerPvs,
                     peerConfirm := Some(m));
    SecureResponder(c, confirmed)
  }

  function SecureResponder(c: Crypto, e: Endpoint): Outcome {
    var derived := DeriveSrtp(c, e);
    if derived.None? then Outcome(e, [], Fault)
    else
      var updated := UpdateCachedSecrets(c, derived.value);
      if updated.None? then Outcome(derived.value, [], Fault)
      else Outcome(EnterSecure(updated.value), [Conf2Ack], Done)
  }

  function OnInitiatorSendingConfirm2(c: Crypto, e: Endpoint, m: Message): Outcome {
    if m.Confirm1? then OnRepetition(c, e, m, e.peerConfirm, Outcome(e, [], Done))
    else if m.Conf2Ack? then
      var updated := UpdateCachedSecrets(c, e);
      if updated.None? then Outcome(e, [], Fault) else Outcome(EnterSecure(updated.value), [], Done)
    else Refuse(e, PARSER_ERROR_UNEXPECTEDMESSAGE)
  }

  function OnSecure(c: Crypto, e: Endpoint, m: Message): Outcome {
    if m.Confirm2? then OnRepetition(c, e, m, e.peerConfirm, Outcome(e, [Conf2Ack], Done))
    else Refuse(e, PARSER_ERROR_UNEXPECTEDMESSAGE)
  }

  /** An incoming message, given to the channel's current state function. */
  function Receive(c: Crypto, e: Endpoint, m: Message): Outcome {
    match e.state
    case DiscoveryInit => OnDiscoveryInit(c, e, m)
    case WaitingForHello => OnWaitingForHello(c, e, m)
    case WaitingForHelloAck => OnWaitingForHelloAck(c, e, m)
    case SendingCommit => OnSendingCommit(c, e, m)
    case ResponderSendingDhPart1 => OnResponderSendingDhPart1(c, e, m)
    case InitiatorSendingDhPart2 => OnInitiatorSendingDhPart2(c, e, m)
    case ResponderSendingConfirm1 => OnResponderSendingConfirm1(c, e, m)
    case InitiatorSendingConfirm2 => OnInitiatorSendingConfirm2(c, e, m)
    case Secure => OnSecure(c, e, m)
  }

  /** A timer event: the states with a retransmission timer send their packet
      again. */
  function Tick(c: Crypto, e: Endpoint): Outcome {
    match e.state
    case DiscoveryInit => Outcome(e, [SelfHello(c, e.cfg)], Done)
    case WaitingForHelloAck => Outcome(e, [SelfHello(c, e.cfg)], Done)
    case SendingCommit => Send(e, e.selfCommit)
    case InitiatorSendingDhPart2 => Send(e, e.selfDhPart)
    case InitiatorSendingConfirm2 => Send(e, e.selfConfirm)
    case _ => Outcome(e, [], Done)
  }

  /** A channel just started: bzrtp_initChannelContext and the INIT event of the
      first state. */
  function Start(cfg: Config): Endpoint {
    var none := SecretIds([], []);
    Endpoint(cfg, DiscoveryInit, Initiator, Algos(UNSET_ALGO, UNSET_ALGO, UNSET_ALGO, UNSET_ALGO, UNSET_ALGO),
             None, None, None, None, None, None, None, [], [],
             Secrets(Retained(None, None), None, None), cfg.pvs, Ids(none, none, [], [], [], []), false, AuxUnset,
             UNSET_ALGO, None, None, None, cfg.zrtpSess, [], None, None, false, false, false, cfg.retained)
  }
}
