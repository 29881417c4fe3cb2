/** The protocol of two ends, octet by octet: the layouts of src/packetParser.c give
    the state machine what it asks of them, and every message of every run fits its
    layout. */
module OnTheWire {
  import opened Octets
  import opened Negotiation
  import opened Agreement
  import opened RetainedSecrets
  import opened Messages
  import opened Protocol
  import opened Exchange
  import opened Runs
  import opened TwoEnds
  import opened SafeRuns
  import opened Layout
  import opened Codec
  import Fragments
  import Reassembly

  /** The messages are laid out as the library does it. */
  ghost predicate LaidOut(c: Crypto) {
    && c.unsigned == Unsigned && c.plain == Plain
    && forall octets {:trigger c.readPlain(octets)} :: Readable(octets) ==> c.readPlain(octets) == ReadPlain(octets)
  }

  /** The sizes of digests, of truncated MACs and of what the cipher makes. */
  ghost predicate Sized(c: Crypto) {
    && (forall s {:trigger c.sha256(s)} :: |c.sha256(s)| == 32)
    && (forall k, s {:trigger c.hmacSha256(k, s)} :: |c.hmacSha256(k, s)| == MAC_LENGTH)
    && (forall h, k, s {:trigger c.hmac(h, k, s)} :: |c.hmac(h, k, s)| == 8)
    && (forall cipher, k, iv, p {:trigger c.encrypt(cipher, k, iv, p)} :: |c.encrypt(cipher, k, iv, p)| == |p|)
    && (forall a {:trigger c.kemPublicLength(a)} :: c.kemPublicLength(a) < 0x1_0000)
    && (forall a {:trigger c.kemCipherTextLength(a)} :: c.kemCipherTextLength(a) < 0x1_0000)
  }

  predicate SizedIds(ids: SecretIds) {
    |ids.rs1| == 8 && |ids.rs2| == 8
  }

  predicate SizedEnd(cfg: Config) {
    var r := cfg.randoms;
    && |cfg.zid| == 12 && |r.confirmIv| == 16 && SizedIds(r.initiatorIds) && SizedIds(r.responderIds)
    && |r.initiatorPbx| == 8 && |r.responderPbx| == 8 && |r.initiatorAux| == 8 && |r.responderAux| == 8
  }

  /** The layout of Confirm messages meets what the proofs about runs assume of
      it. */
  lemma LayoutOpensConfirms(c: Crypto)
    requires LaidOut(c)
    requires forall cipher, key, iv, plain {:trigger c.encrypt(cipher, key, iv, plain)} ::
               c.decrypt(cipher, key, iv, c.encrypt(cipher, key, iv, plain)) == plain
    ensures ConfirmsOpen(c)
  {
    forall body | WellFormedConfirm(body) ensures c.readPlain(c.plain(body)) == body {
      PlainReadsBack(body);
    }
  }

  /** The octets hashed and MACed by the state machine are those of the packet. */
  lemma WireIsMessageOctets(c: Crypto, m: Message)
    requires c.unsigned == Unsigned && m.Signed? && |m.mac| == MAC_LENGTH
    ensures Wire(c, m) == MessageOctets(m)
  {
    var length := MESSAGE_HEADER_LENGTH + |Content(m.body)| + MAC_LENGTH;
    assert MessageHeader(BodyKind(m.body), length) + Content(m.body) + m.mac == MessageHeader(BodyKind(m.body), length) + (Content(m.body) + m.mac);
  }

  // ---------------------------------------------------------------------
  // Messages of a script fit

  lemma ImplementedIsNamed(family: Family, algo: byte)
    requires Implemented(family, algo)
    ensures Named(family, algo)
  {
  }

  lemma ConfiguredListIsFull(family: Family, list: seq<byte>)
    requires ConfiguredList(family, list)
    ensures FullList(family, list)
  {
    forall k | 0 <= k < |list| ensures Named(family, list[k]) {
      ImplementedIsNamed(family, list[k]);
    }
  }

  lemma HelloFits(c: Crypto, cfg: Config)
    requires Sized(c) && SizedEnd(cfg) && Configured(cfg.lists)
    ensures SelfHello(c, cfg).Signed? && |SelfHello(c, cfg).mac| == MAC_LENGTH
    ensures SelfHello(c, cfg).body.HelloBody? && WellFormedHello(SelfHello(c, cfg).body.hello)
  {
    ConfiguredListIsFull(Hash, cfg.lists.hash);
    ConfiguredListIsFull(Cipher, cfg.lists.cipher);
    ConfiguredListIsFull(AuthTag, cfg.lists.authTag);
    ConfiguredListIsFull(KeyAgreement, cfg.lists.keyAgreement);
    ConfiguredListIsFull(Sas, cfg.lists.sas);
  }

  lemma IdsFit(c: Crypto, x: Party, y: Party)
    requires Sized(c) && SizedEnd(x.cfg)
    ensures var ids := IdsOf(c, x, y);
            && SizedIds(ids.initiator) && SizedIds(ids.responder) && |ids.initiatorPbx| == 8 && |ids.responderPbx| == 8
            && |ids.initiatorAux| == 8 && |ids.responderAux| == 8
  {
  }

  lemma SelectedAlgosAreNamed(x: Party, y: Party)
    requires Configured(x.cfg.lists) && Configured(y.cfg.lists) && Selects(x, y)
    ensures AlgosNamed(x.algos)
  {
    ReceivedAsSent(y.cfg.lists);
    ConfiguredAgree(x.cfg.lists, y.cfg.lists, UNSET_ALGOS);
    var algos := Agree(x.cfg.lists, y.cfg.lists, UNSET_ALGOS).1;
    assert algos.Of(Hash) in x.cfg.lists.Of(Hash) && algos.Of(Cipher) in x.cfg.lists.Of(Cipher);
    assert algos.Of(AuthTag) in x.cfg.lists.Of(AuthTag) && algos.Of(Sas) in x.cfg.lists.Of(Sas);
    ImplementedIsNamed(Hash, algos.hash);
    ImplementedIsNamed(Cipher, algos.cipher);
    ImplementedIsNamed(AuthTag, algos.authTag);
    ImplementedIsNamed(KeyAgreement, algos.keyAgreement);
    ImplementedIsNamed(Sas, algos.sas);
  }

  lemma CommitFits(c: Crypto, i: Party, r: Party, t: Script)
    requires Sized(c) && SizedEnd(i.cfg) && AlgosNamed(i.algos) && OneMode(i, r) && LengthsHold(c, i, r, t)
    requires t.commit == CommitFrom(c, i, t.dhPart2, t.responderHello)
    ensures |t.commit.mac| == MAC_LENGTH && WellFormedCommit(c, t.commit.body.commit)
  {
  }

  lemma DhPartsFit(c: Crypto, i: Party, r: Party, t: Script)
    requires Sized(c) && SizedEnd(i.cfg) && SizedEnd(r.cfg) && LengthsHold(c, i, r, t) && MessagesOf(c, i, r, t) && !NonDh(i.Ka())
    ensures WellFormedMessage(c, i.Ka(), t.dhPart1) && WellFormedMessage(c, i.Ka(), t.dhPart2)
  {
    IdsFit(c, i, r);
    IdsFit(c, r, i);
  }

  lemma ConfirmFits(c: Crypto, cfg: Config, algos: Algos, pvs: bool, mackey: Bytes, zrtpkey: Bytes)
    requires Sized(c) && SizedEnd(cfg) && c.plain == Plain && |cfg.h0| == H0_LENGTH
    ensures WellFormedCipherText(ConfirmPacket(c, cfg, algos, pvs, mackey, zrtpkey))
  {
    PlainFields(ConfirmBody(cfg.h0, 0, false, pvs, false, false, 0xFFFF_FFFF, [], []));
  }

  ghost predicate ScriptFits(c: Crypto, i: Party, t: Script) {
    && WellFormedMessage(c, i.Ka(), t.initiatorHello) && WellFormedMessage(c, i.Ka(), t.responderHello)
    && WellFormedMessage(c, i.Ka(), t.commit)
    && (!NonDh(i.Ka()) ==> WellFormedMessage(c, i.Ka(), t.dhPart1) && WellFormedMessage(c, i.Ka(), t.dhPart2))
    && WellFormedMessage(c, i.Ka(), t.confirm1) && WellFormedMessage(c, i.Ka(), t.confirm2)
  }

  lemma ScriptMessagesFit(c: Crypto, i: Party, r: Party, t: Script)
    requires Sized(c) && c.plain == Plain && SizedEnd(i.cfg) && SizedEnd(r.cfg) && AlgosNamed(i.algos) && OneMode(i, r)
    requires Configured(i.cfg.lists) && Configured(r.cfg.lists)
    requires LengthsHold(c, i, r, t) && MessagesOf(c, i, r, t) && ConfirmsOf(c, i, r, t)
    ensures ScriptFits(c, i, t)
  {
    HelloFits(c, i.cfg);
    HelloFits(c, r.cfg);
    CommitFits(c, i, r, t);
    if !NonDh(i.Ka()) {
      DhPartsFit(c, i, r, t);
    }
    ConfirmFits(c, r.cfg, i.algos, r.cfg.pvs && !Mismatched(r, i, r), t.keys.mackeyr, t.keys.zrtpkeyr);
    ConfirmFits(c, i.cfg, i.algos, i.cfg.pvs && !Mismatched(i, i, r), t.keys.mackeyi, t.keys.zrtpkeyi);
  }

  lemma SentFits(c: Crypto, x: Party, y: Party, t: Script, u: Script, stage: Stage, m: Message)
    requires ScriptFits(c, x, t) && ScriptFits(c, y, u) && x.Ka() == y.Ka()
    requires MaySend(t, u, !NonDh(x.Ka()), stage, m)
    ensures WellFormedMessage(c, x.Ka(), m)
  {
  }

  lemma MessageIsShort(c: Crypto, keyAgreement: byte, m: Message)
    requires Sized(c) && WellFormedMessage(c, keyAgreement, m)
    ensures |MessageOctets(m)| < 0x4_0000
  {
    match m
    case Signed(HelloBody(h), mac) =>
      HelloFieldsReadBack(h, []);
      ListsReadBack(h.lists, []);
    case Signed(CommitBody(commit), mac) =>
      CommitFieldsReadBack(commit, []);
      CommitValueReadsBack(c, commit);
    case Signed(DhPart1Body(d), mac) => DhPartContent(d, |d.pv|, mac);
    case Signed(DhPart2Body(d), mac) => DhPartContent(d, |d.pv|, mac);
    case HelloAck =>
    case Confirm1(confirm) =>
    case Confirm2(confirm) =>
    case Conf2Ack =>
  }

  ghost predicate WireEnds(c: Crypto, x: Config, y: Config) {
    LaidOut(c) && Sized(c) && SizedEnd(x) && SizedEnd(y)
  }

  lemma SettingFits(c: Crypto, x: Party, y: Party, t: Script, u: Script)
    requires Setting(c, x, y, t, u) && WireEnds(c, x.cfg, y.cfg) && Configured(x.cfg.lists) && Configured(y.cfg.lists)
    ensures ScriptFits(c, x, t) && ScriptFits(c, y, u) && x.Ka() == y.Ka()
  {
    SelectedAlgosAreNamed(x, y);
    SelectedAlgosAreNamed(y, x);
    ScriptMessagesFit(c, x, y, t);
    ScriptMessagesFit(c, y, x, u);
  }

  // ---------------------------------------------------------------------
  // Theorems

  // A well-formed signed message ends with a MAC of eight octets.
  lemma MacHasItsLength(c: Crypto, keyAgreement: byte, m: Message)
    requires c.unsigned == Unsigned && WellFormedMessage(c, keyAgreement, m)
    ensures m.Signed? ==> Wire(c, m) == MessageOctets(m)
  {
    if m.Signed? {
      WireIsMessageOctets(c, m);
    }
  }

  lemma SentMessageFits(c: Crypto, x: Config, y: Config, run: seq<Event>, m: Message)
    requires HonestEnds(c, x, y) && WireEnds(c, x, y)
    requires m in Reached(c, x, y, run).sentX || m in Reached(c, x, y, run).sentY
    ensures WellFormedMessage(c, PartyOf(x, y).Ka(), m)
  {
    var i, r, g := PartyOf(x, y), PartyOf(y, x), Reached(c, x, y, run);
    var t, u := ReachedIsInvariant(c, x, y, run);
    SettingFits(c, i, r, t, u);
    if m in g.sentX {
      SentFits(c, i, r, t, u, StageOf(g.x), m);
    } else {
      SentFits(c, r, i, u, t, StageOf(g.y), m);
    }
  }

  /** In every run of two honest ends, every message sent is a whole number of words
      and is parsed back, by an end that agreed on the key agreement, to what it
      was built from. */
  lemma EveryMessageReadsBack(c: Crypto, x: Config, y: Config, run: seq<Event>, m: Message)
    requires HonestEnds(c, x, y) && WireEnds(c, x, y)
    requires m in Reached(c, x, y, run).sentX || m in Reached(c, x, y, run).sentY
    ensures |MessageOctets(m)| % 4 == 0
    ensures ReadMessage(c, PartyOf(x, y).Ka(), MessageOctets(m)) == Parsed(m)
    ensures m.Signed? ==> Wire(c, m) == MessageOctets(m)
  {
    SentMessageFits(c, x, y, run, m);
    var ka := PartyOf(x, y).Ka();
    MessagesAreWholeWords(c, ka, m);
    MessageIsShort(c, ka, m);
    MessageReadsBack(c, ka, m);
    MacHasItsLength(c, ka, m);
  }

  /** A message that arrives in fragments, in whatever order and among whatever
      others, is parsed back to what it was built from. */
  lemma ReassembledMessageReadsBack(c: Crypto, keyAgreement: byte, m: Message,
                                    net: Reassembly.Network, arrivals: seq<Reassembly.Arrival>)
    requires Sized(c) && WellFormedMessage(c, keyAgreement, m)
    requires Reassembly.Underway(net) && Reassembly.AllPossible(net, arrivals) && arrivals != []
    requires net[arrivals[|arrivals| - 1].id].message == MessageOctets(m)
    requires Reassembly.LastReply(net, arrivals).Packet?
    ensures var packet := Reassembly.LastReply(net, arrivals).packet;
            |packet| >= 28 && ReadMessage(c, keyAgreement, packet[12..|packet| - 4]) == Parsed(m)
  {
    Reassembly.MessagesAreNeverMixed(net, arrivals);
    MessageIsShort(c, keyAgreement, m);
    MessageReadsBack(c, keyAgreement, m);
  }
}
