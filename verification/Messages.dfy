/** The messages two ends exchange (include/packetParser.h) and the
    cryptographic functions their protocol is built on. */
module Messages {
  import opened Octets
  import opened Agreement

  datatype Hello = Hello(version: Bytes, clientIdentifier: Bytes, h3: Bytes, zid: Bytes,
                         s: bool, m: bool, p: bool, lists: AlgoLists)

  /** hvi is for the Diffie-Hellman and KEM modes, pv for KEM modes only, nonce for
      the multistream and preshared modes; the fields a mode does not use are
      empty. */
  datatype Commit = Commit(h2: Bytes, zid: Bytes, algos: Algos, hvi: Bytes, pv: Bytes, nonce: Bytes)

  datatype DhPart = DhPart(h1: Bytes, rs1Id: Bytes, rs2Id: Bytes, auxId: Bytes, pbxId: Bytes, pv: Bytes)

  /** What a Confirm message encrypts. */
  datatype ConfirmBody = ConfirmBody(h0: Bytes, sigLen: nat, e: bool, v: bool, a: bool, d: bool, cacheExpiration: nat,
                                     signatureType: Bytes, signature: Bytes)

  const H0_LENGTH := 32

  /** A body that fits the fields of a Confirm: the length of a signature, type
      included, is in words on nine bits. */
  predicate WellFormedConfirm(body: ConfirmBody) {
    && |body.h0| == H0_LENGTH && body.sigLen < 512 && body.cacheExpiration < 0x1_0000_0000
    && if body.sigLen == 0 then body.signatureType == [] && body.signature == []
       else |body.signatureType| == 4 && |body.signature| == 4 * (body.sigLen - 1)
  }

  datatype Confirm = Confirm(mac: Bytes, iv: Bytes, cipherText: Bytes)

  /** The messages that end with a MAC keyed by a hash revealed later. */
  datatype Body =
    | HelloBody(hello: Hello)
    | CommitBody(commit: Commit)
    | DhPart1Body(dhPart: DhPart)
    | DhPart2Body(dhPart: DhPart)

  datatype Message =
    | Signed(body: Body, mac: Bytes)
    | HelloAck
    | Confirm1(confirm: Confirm)
    | Confirm2(confirm: Confirm)
    | Conf2Ack

  /** The labels given to the key derivation function, sections 4.5 and 4.6 of
      RFC 6189. */
  datatype Label =
    | InitiatorHmacKey | ResponderHmacKey | InitiatorZrtpKey | ResponderZrtpKey
    | ZrtpSessionKey | ZrtpMsk
    | InitiatorSrtpMasterKey | InitiatorSrtpMasterSalt | ResponderSrtpMasterKey | ResponderSrtpMasterSalt
    | SasLabel | RetainedSecretLabel

  /** The primitives of the crypto libraries, the octets of the signed messages
      without their MAC, and those of the plain part of a Confirm. The algorithm
      is the first argument where there is a choice. */
  datatype Crypto = Crypto(
    sha256: Bytes -> Bytes,
    hmacSha256: (Bytes, Bytes) -> Bytes,
    hash: (byte, Bytes, nat) -> Bytes,
    hmac: (byte, Bytes, Bytes) -> Bytes,
    kdf: (byte, Bytes, Label, Bytes, nat) -> Bytes,
    encrypt: (byte, Bytes, Bytes, Bytes) -> Bytes,
    decrypt: (byte, Bytes, Bytes, Bytes) -> Bytes,
    dhPublic: (byte, Bytes) -> Bytes,
    dhShared: (byte, Bytes, Bytes) -> Bytes,
    kemPublic: (byte, byte, Bytes) -> Bytes,
    kemCipherText: (byte, byte, Bytes, Bytes) -> Bytes,
    kemSecret: (byte, byte, Bytes, Bytes) -> Bytes,
    kemDecaps: (byte, byte, Bytes, Bytes) -> Bytes,
    kemPublicLength: byte -> nat,
    kemCipherTextLength: byte -> nat,
    unsigned: Body -> Bytes,
    plain: ConfirmBody -> Bytes,
    readPlain: Bytes -> ConfirmBody)

  function Wire(c: Crypto, m: Message): Bytes
    requires m.Signed?
  {
    c.unsigned(m.body) + m.mac
  }

  function Sign(c: Crypto, key: Bytes, body: Body): (m: Message)
    ensures m.Signed?
  {
    Signed(body, c.hmacSha256(key, c.unsigned(body)))
  }

  predicate SignedWith(c: Crypto, key: Bytes, m: Message) {
    m.Signed? && m.mac == c.hmacSha256(key, c.unsigned(m.body))
  }
}
