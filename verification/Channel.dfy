/** A channel as the C code runs it: state functions that update the channel and
    its context in place and append to what is sent. Each method is proved to do
    what the function of module Protocol says. */
module Channel {
  import opened Octets
  import opened Negotiation
  import opened Agreement
  import opened RetainedSecrets
  import opened Messages
  import opened Protocol

  // The values behind the two computations of s0.

  function DhKdfContext(c: Crypto, e: Endpoint, hello: Message, commit: Message, dhPart1: Message, dhPart2: Message): Bytes
    requires hello.Signed? && commit.Signed? && dhPart1.Signed? && dhPart2.Signed?
  {
    var (zidi, zidr) := if e.role == Responder then (e.peerZid, e.cfg.zid) else (e.cfg.zid, e.peerZid);
    KdfContext(c, e.algos.hash, zidi, zidr, Wire(c, hello) + Wire(c, commit) + Wire(c, dhPart1) + Wire(c, dhPart2))
  }

  predicate DhPackets(c: Crypto, e: Endpoint, hello: Option<Message>, commit: Option<Message>, dhPart1: Option<Message>, dhPart2: Option<Message>) {
    if e.role == Responder then
      hello == Some(SelfHello(c, e.cfg)) && commit == e.peerCommit && dhPart1 == e.selfDhPart && dhPart2 == e.peerDhPart
    else hello == e.peerHello && commit == e.selfCommit && dhPart1 == e.peerDhPart && dhPart2 == e.selfDhPart
  }

  lemma S0DhMissing(c: Crypto, e: Endpoint, hello: Option<Message>, commit: Option<Message>, dhPart1: Option<Message>, dhPart2: Option<Message>)
    requires DhPackets(c, e, hello, commit, dhPart1, dhPart2)
    requires !(IsSigned(hello) && IsSigned(commit) && IsSigned(dhPart1) && IsSigned(dhPart2) && e.kaContext.Some? && IsDhPart(e.peerDhPart))
    ensures ComputeS0Dh(c, e) == None
  {
  }

  lemma S0DhDerived(c: Crypto, e: Endpoint, hello: Option<Message>, commit: Option<Message>, dhPart1: Option<Message>, dhPart2: Option<Message>,
                    context: Bytes, s0: Bytes)
    requires DhPackets(c, e, hello, commit, dhPart1, dhPart2)
    requires IsSigned(hello) && IsSigned(commit) && IsSigned(dhPart1) && IsSigned(dhPart2) && e.kaContext.Some? && IsDhPart(e.peerDhPart)
    requires context == DhKdfContext(c, e, hello.value, commit.value, dhPart1.value, dhPart2.value)
    requires s0 == S0(c, e.algos.hash, SharedValue(c, e.kaAlgo, e.kaContext.value, e.peerDhPart.value.body.dhPart.pv), context,
                      S1(e.secrets.retained), e.secrets.aux, e.secrets.pbx)
    ensures ComputeS0Dh(c, e) == Some(WithDhS0(c, e, context, s0))
  {
  }

  function WithDhS0(c: Crypto, e: Endpoint, context: Bytes, s0: Bytes): Endpoint {
    e.(kdfContext := Some(context), s0 := Some(s0),
       zrtpSess := Some(c.kdf(e.algos.hash, s0, ZrtpSessionKey, context, HashLength(e.algos.hash))),
       zrtpSessContext := if e.role == Initiator then e.peerZid else e.cfg.zid,
       kaAlgo := UNSET_ALGO, kaContext := None, keys := Some(DerivedKeys(c, e.algos, s0, context)))
  }

  function WithMultS0(c: Crypto, e: Endpoint, context: Bytes, s0: Bytes): Endpoint {
    e.(kdfContext := Some(context), s0 := Some(s0), keys := Some(DerivedKeys(c, e.algos, s0, context)))
  }

  predicate MultPackets(c: Crypto, e: Endpoint, hello: Option<Message>, commit: Option<Message>) {
    if e.role == Responder then hello == Some(SelfHello(c, e.cfg)) && commit == e.peerCommit
    else hello == e.peerHello && commit == e.selfCommit
  }

  lemma S0MultMissing(c: Crypto, e: Endpoint, hello: Option<Message>, commit: Option<Message>)
    requires MultPackets(c, e, hello, commit) && !(IsSigned(hello) && IsSigned(commit) && e.zrtpSess.Some?)
    ensures ComputeS0Mult(c, e) == None
  {
  }

  lemma S0MultDerived(c: Crypto, e: Endpoint, hello: Option<Message>, commit: Option<Message>, context: Bytes, s0: Bytes)
    requires MultPackets(c, e, hello, commit) && IsSigned(hello) && IsSigned(commit) && e.zrtpSess.Some?
    requires context == KdfContext(c, e.algos.hash, if e.role == Responder then e.peerZid else e.cfg.zid,
                                   if e.role == Responder then e.cfg.zid else e.peerZid, Wire(c, hello.value) + Wire(c, commit.value))
    requires s0 == MultiStreamS0(c, e.algos.hash, e.zrtpSess.value, context)
    ensures ComputeS0Mult(c, e) == Some(WithMultS0(c, e, context, s0))
  {
  }

  /** bzrtpChannelContext_t with the fields of its bzrtpContext_t that the state
      machine uses. */
  class ChannelContext {
    const c: Crypto
    const cfg: Config

    var stateMachine: State
    var role: Role
    var algos: Algos
    var selfCommit: Option<Message>
    var selfDhPart: Option<Message>
    var selfConfirm: Option<Message>
    var peerHello: Option<Message>
    var peerCommit: Option<Message>
    var peerDhPart: Option<Message>
    var peerConfirm: Option<Message>
    var peerZid: Bytes
    var peerH0: Bytes
    var secrets: Secrets
    var pvs: bool
    var ids: Ids
    var cacheMismatchFlag: bool
    var auxSecretMismatch: AuxStatus
    var keyAgreementAlgo: byte
    var keyAgreementContext: Option<KaContext>
    var kdfContext: Option<Bytes>
    var s0: Option<Bytes>
    var zrtpSess: Option<Bytes>
    var zrtpSessContext: Bytes
    var keys: Option<Keys>
    var srtpSecrets: Option<Srtp>
    var isSecure: bool
    var contextIsSecure: bool
    var peerPvs: bool
    var cache: Retained

    /** The packets handed to the application's send callback. */
    var sent: seq<Message>

    function View(): Endpoint
      reads this
    {
      Endpoint(cfg, stateMachine, role, algos, selfCommit, selfDhPart, selfConfirm, peerHello, peerCommit, peerDhPart, peerConfirm,
               peerZid, peerH0, secrets, pvs, ids, cacheMismatchFlag, auxSecretMismatch, keyAgreementAlgo, keyAgreementContext,
               kdfContext, s0, zrtpSess, zrtpSessContext, keys, srtpSecrets, isSecure, contextIsSecure, peerPvs, cache)
    }

    /** The state reached, the packets sent and the code returned are those of o. A
        fault ends the program: what it leaves behind is of no interest. */
    twostate predicate Does(o: Outcome, ret: Ret)
      reads this
    {
      ret == o.ret && (ret != Fault ==> View() == o.next && sent == old(sent) + o.sent)
    }

    constructor (c: Crypto, cfg: Config)
      ensures this.c == c && this.cfg == cfg && View() == Start(cfg) && sent == []
    {
      this.c, this.cfg := c, cfg;
      stateMachine, role, algos := DiscoveryInit, Initiator, Algos(UNSET_ALGO, UNSET_ALGO, UNSET_ALGO, UNSET_ALGO, UNSET_ALGO);
      selfCommit, selfDhPart, selfConfirm := None, None, None;
      peerHello, peerCommit, peerDhPart, peerConfirm := None, None, None, None;
      peerZid, peerH0 := [], [];
      secrets, pvs := Secrets(Retained(None, None), None, None), cfg.pvs;
      ids := Ids(SecretIds([], []), SecretIds([], []), [], [], [], []);
      cacheMismatchFlag, auxSecretMismatch := false, AuxUnset;
      keyAgreementAlgo, keyAgreementContext := UNSET_ALGO, None;
      kdfContext, s0, zrtpSess, zrtpSessContext := None, None, cfg.zrtpSess, [];
      keys, srtpSecrets := None, None;
      isSecure, contextIsSecure, peerPvs := false, false, false;
      cache := cfg.retained;
      sent := [];
    }

    /** bzrtp_sendPacket. */
    method SendPacket(packet: Option<Message>) returns (ret: Ret)
      modifies this`sent
      ensures Does(Send(old(View()), packet), ret)
    {
      if packet.None? {
        return Fault;
      }
      sent := sent + [packet.value];
      ret := Done;
    }

    /** bzrtp_deriveKeysFromS0. */
    method DeriveKeysFromS0()
      requires s0.Some? && kdfContext.Some?
      modifies this`keys
      ensures View() == old(View()).(keys := Some(DerivedKeys(c, algos, s0.value, kdfContext.value)))
    {
      var hashLength, cipherKeyLength := HashLength(algos.hash), CipherKeyLength(algos.cipher);
      var mackeyi := c.kdf(algos.hash, s0.value, InitiatorHmacKey, kdfContext.value, hashLength);
      var mackeyr := c.kdf(algos.hash, s0.value, ResponderHmacKey, kdfContext.value, hashLength);
      var zrtpkeyi := c.kdf(algos.hash, s0.value, InitiatorZrtpKey, kdfContext.value, cipherKeyLength);
      var zrtpkeyr := c.kdf(algos.hash, s0.value, ResponderZrtpKey, kdfContext.value, cipherKeyLength);
      keys := Some(Keys(mackeyi, mackeyr, zrtpkeyi, zrtpkeyr));
    }

    /** The data hashed into s0, appended piece by piece. */
    method ComputeS0(context: Bytes, shared: Bytes) returns (s0: Bytes)
      ensures s0 == S0(c, algos.hash, shared, context, S1(secrets.retained), secrets.aux, secrets.pbx)
    {
      var s1 := secrets.retained.rs1;
      if s1.None? {
        s1 := secrets.retained.rs2;
      }
      var dataToHash := [0, 0, 0, 1] + shared;
      dataToHash := dataToHash + ZRTP_HMAC_KDF;
      dataToHash := dataToHash + context;
      dataToHash := dataToHash + Sized(s1);
      dataToHash := dataToHash + Sized(secrets.aux);
      dataToHash := dataToHash + Sized(secrets.pbx);
      s0 := c.hash(algos.hash, dataToHash, HashLength(algos.hash));
    }

    /** total_hash and the KDF context over the four messages of an exchange. */
    method ComputeKdfContext(hello: Message, commit: Message, dhPart1: Message, dhPart2: Message) returns (context: Bytes)
      requires hello.Signed? && commit.Signed? && dhPart1.Signed? && dhPart2.Signed?
      ensures context == DhKdfContext(c, View(), hello, commit, dhPart1, dhPart2)
    {
      var dataToHash := Wire(c, hello);
      dataToHash := dataToHash + Wire(c, commit);
      dataToHash := dataToHash + Wire(c, dhPart1);
      dataToHash := dataToHash + Wire(c, dhPart2);
      var zidi, zidr := peerZid, cfg.zid;
      if role == Initiator {
        zidi, zidr := cfg.zid, peerZid;
      }
      context := zidi + zidr + c.hash(algos.hash, dataToHash, HashLength(algos.hash));
    }

    /** The values bzrtp_computeS0DHMMode computes, before it stores them. */
    method ComputeS0DhValues() returns (ok: bool, context: Bytes, newS0: Bytes)
      ensures ok == ComputeS0Dh(c, View()).Some?
      ensures ok ==> ComputeS0Dh(c, View()) == Some(WithDhS0(c, View(), context, newS0))
    {
      var hello, commit, dhPart1, dhPart2 := Some(SelfHello(c, cfg)), peerCommit, selfDhPart, peerDhPart;
      if role == Initiator {
        hello, commit, dhPart1, dhPart2 := peerHello, selfCommit, peerDhPart, selfDhPart;
      }
      ok, context, newS0 := false, [], [];
      if !(IsSigned(hello) && IsSigned(commit) && IsSigned(dhPart1) && IsSigned(dhPart2)
           && keyAgreementContext.Some? && IsDhPart(peerDhPart)) {
        S0DhMissing(c, View(), hello, commit, dhPart1, dhPart2);
        return;
      }
      ok := true;
      context := ComputeKdfContext(hello.value, commit.value, dhPart1.value, dhPart2.value);
      var shared := SharedValue(c, keyAgreementAlgo, keyAgreementContext.value, peerDhPart.value.body.dhPart.pv);
      newS0 := ComputeS0(context, shared);
      S0DhDerived(c, View(), hello, commit, dhPart1, dhPart2, context, newS0);
    }

    method StoreS0(context: Bytes, newS0: Bytes)
      modifies this`kdfContext, this`s0
      ensures View() == old(View()).(kdfContext := Some(context), s0 := Some(newS0))
    {
      kdfContext := Some(context);
      s0 := Some(newS0);
    }

    /** Both copies of a ZID go to the start of zrtpSessContext: the second one
        stays. */
    method StoreZrtpSess(key: Bytes)
      modifies this`zrtpSess, this`zrtpSessContext
      ensures View() == old(View()).(zrtpSess := Some(key), zrtpSessContext := if role == Initiator then peerZid else cfg.zid)
    {
      zrtpSess := Some(key);
      if role == Initiator {
        zrtpSessContext := cfg.zid;
        zrtpSessContext := peerZid;
      } else {
        zrtpSessContext := peerZid;
        zrtpSessContext := cfg.zid;
      }
    }

    method DestroyKeyAgreementContext()
      modifies this`keyAgreementContext, this`keyAgreementAlgo
      ensures View() == old(View()).(kaContext := None, kaAlgo := UNSET_ALGO)
    {
      keyAgreementContext := None;
      keyAgreementAlgo := UNSET_ALGO;
    }

    /** bzrtp_computeS0DHMMode. */
    method ComputeS0DhMode() returns (ok: bool)
      modifies this`kdfContext, this`s0, this`zrtpSess, this`zrtpSessContext, this`keyAgreementContext, this`keyAgreementAlgo, this`keys
      ensures ok == ComputeS0Dh(c, old(View())).Some?
      ensures View() == if ok then ComputeS0Dh(c, old(View())).value else old(View())
    {
      var context, newS0;
      ok, context, newS0 := ComputeS0DhValues();
      if ok {
        StoreS0(context, newS0);
        StoreZrtpSess(c.kdf(algos.hash, newS0, ZrtpSessionKey, context, HashLength(algos.hash)));
        DestroyKeyAgreementContext();
        DeriveKeysFromS0();
      }
    }

    /** The values bzrtp_computeS0MultiStreamMode computes. */
    method ComputeS0MultValues() returns (ok: bool, context: Bytes, newS0: Bytes)
      ensures ok == ComputeS0Mult(c, View()).Some?
      ensures ok ==> ComputeS0Mult(c, View()) == Some(WithMultS0(c, View(), context, newS0))
    {
      var hello, commit := Some(SelfHello(c, cfg)), peerCommit;
      var zidi, zidr := peerZid, cfg.zid;
      if role == Initiator {
        hello, commit := peerHello, selfCommit;
        zidi, zidr := cfg.zid, peerZid;
      }
      ok, context, newS0 := false, [], [];
      if !(IsSigned(hello) && IsSigned(commit) && zrtpSess.Some?) {
        S0MultMissing(c, View(), hello, commit);
        return;
      }
      ok := true;
      var dataToHash := Wire(c, hello.value);
      dataToHash := dataToHash + Wire(c, commit.value);
      context := zidi + zidr + c.hash(algos.hash, dataToHash, HashLength(algos.hash));
      newS0 := c.kdf(algos.hash, zrtpSess.value, ZrtpMsk, context, HashLength(algos.hash));
      S0MultDerived(c, View(), hello, commit, context, newS0);
    }

    /** bzrtp_computeS0MultiStreamMode. */
    method ComputeS0MultiStreamMode() returns (ok: bool)
      modifies this`kdfContext, this`s0, this`keys
      ensures ok == ComputeS0Mult(c, old(View())).Some?
      ensures View() == if ok then ComputeS0Mult(c, old(View())).value else old(View())
    {
      var context, newS0;
      ok, context, newS0 := ComputeS0MultValues();
      if ok {
        StoreS0(context, newS0);
        DeriveKeysFromS0();
      }
    }

    /** bzrtp_deriveSrtpKeysFromS0. */
    method DeriveSrtpKeysFromS0() returns (ok: bool)
      modifies this`srtpSecrets
      ensures ok == DeriveSrtp(c, old(View())).Some?
      ensures View() == if ok then DeriveSrtp(c, old(View())).value else old(View())
    {
      ok := s0.Some? && kdfContext.Some?;
      if !ok {
        return;
      }
      var srtpkeyi := c.kdf(algos.hash, s0.value, InitiatorSrtpMasterKey, kdfContext.value, CipherKeyLength(algos.cipher));
      var srtpsalti := c.kdf(algos.hash, s0.value, InitiatorSrtpMasterSalt, kdfContext.value, SrtpSaltLength(algos.authTag));
      var srtpkeyr := c.kdf(algos.hash, s0.value, ResponderSrtpMasterKey, kdfContext.value, CipherKeyLength(algos.cipher));
      var srtpsaltr := c.kdf(algos.hash, s0.value, ResponderSrtpMasterSalt, kdfContext.value, SrtpSaltLength(algos.authTag));
      var sasHash := None;
      if algos.keyAgreement != KEYAGREEMENT_MULT {
        sasHash := Some(c.kdf(algos.hash, s0.value, SasLabel, kdfContext.value, 32));
      }
      if role == Initiator {
        srtpSecrets := Some(Srtp(srtpkeyi, srtpsalti, srtpkeyr, srtpsaltr, sasHash));
      } else {
        srtpSecrets := Some(Srtp(srtpkeyr, srtpsaltr, srtpkeyi, srtpsalti, sasHash));
      }
    }

    /** The end of bzrtp_updateCachedSecrets: the columns written, s0 and the
        session's copies of the secrets destroyed. */
    method WriteCache(rs1: Bytes, rs2: Option<Bytes>)
      modifies this`cache, this`s0, this`secrets
      ensures View() == old(View()).(cache := Retained(Some(rs1), rs2), s0 := None, secrets := Secrets(Retained(None, None), None, None))
    {
      cache := Retained(Some(rs1), rs2);
      s0 := None;
      secrets := Secrets(Retained(None, None), None, None);
    }

    method DestroyS0()
      modifies this`s0
      ensures View() == old(View()).(s0 := None)
    {
      s0 := None;
    }

    /** bzrtp_updateCachedSecrets. */
    method UpdateSecrets() returns (ok: bool)
      modifies this`s0, this`cache, this`secrets
      ensures ok == UpdateCachedSecrets(c, old(View())).Some?
      ensures View() == if ok then UpdateCachedSecrets(c, old(View())).value else old(View())
    {
      if algos.keyAgreement == KEYAGREEMENT_MULT {
        DestroyS0();
        return true;
      }
      if cacheMismatchFlag {
        return true;
      }
      if s0.None? || kdfContext.None? {
        return false;
      }
      var rs1 := c.kdf(algos.hash, s0.value, RetainedSecretLabel, kdfContext.value, RETAINED_SECRET_LENGTH);
      WriteCache(rs1, secrets.retained.rs1);
      ok := true;
    }

    // -------------------------------------------------------------------
    // Hello

    /** The retained secrets of the peer and their identifiers. */
    method LoadCachedSecrets(peerH3: Bytes)
      modifies this`secrets, this`pvs, this`ids
      ensures View() == WithLoadedSecrets(c, old(View()), peerH3)
    {
      var loaded := secrets;
      if secrets.retained.rs1.None? {
        loaded := Secrets(cfg.retained, cfg.aux, cfg.pbx);
        pvs := cfg.pvs;
      }
      loaded := loaded.(aux := WithTransient(loaded.aux, cfg.transientAux));
      secrets := loaded;
      ids := ComputeIds(c, cfg, algos.hash, loaded, peerH3);
    }

    method SetSelfDhPart(packet: Message)
      modifies this`selfDhPart
      ensures View() == old(View()).(selfDhPart := Some(packet))
    {
      selfDhPart := Some(packet);
    }

    method SetKeyAgreement(algo: byte, context: KaContext)
      modifies this`keyAgreementAlgo, this`keyAgreementContext
      ensures View() == old(View()).(kaAlgo := algo, kaContext := Some(context))
    {
      keyAgreementAlgo := algo;
      keyAgreementContext := Some(context);
    }

    /** The DHPart2 created on reception of a Hello, out of the multistream mode. */
    method CreateDhPart2() returns (ret: Ret)
      modifies this`selfDhPart, this`keyAgreementAlgo, this`keyAgreementContext, this`sent
      ensures Does(PrepareDhPart2(c, old(View())), ret)
    {
      var ka := algos.keyAgreement;
      if NonDh(ka) {
        ret := SendPacket(Some(HelloAck));
      } else if IsDiffieHellman(ka) {
        SetSelfDhPart(DhPart2Packet(c, cfg, ids, c.dhPublic(ka, cfg.randoms.dhPrivate)));
        SetKeyAgreement(ka, DhKey(cfg.randoms.dhPrivate));
        ret := SendPacket(Some(HelloAck));
      } else if IsKem(ka) {
        SetSelfDhPart(DhPart2Packet(c, cfg, ids, cfg.randoms.kemNonce));
        ret := SendPacket(Some(HelloAck));
      } else {
        ret := Refused(CREATE_ERROR_UNABLETOCREATECRYPTOCONTEXT);
      }
    }

    method StoreHello(m: Message)
      requires IsHello(Some(m))
      modifies this`peerZid, this`peerHello
      ensures View() == old(View()).(peerZid := m.body.hello.zid, peerHello := Some(m))
    {
      peerZid := m.body.hello.zid;
      peerHello := Some(m);
    }

    method Greet(m: Message, lists: AlgoLists) returns (ret: Ret)
      requires IsHello(Some(m))
      modifies this
      ensures Does(GreetPeer(c, old(View()), m, lists), ret)
    {
      StoreHello(m);
      if !cfg.isMainChannel && zrtpSess.Some? {
        if KEYAGREEMENT_MULT in lists.keyAgreement {
          SetAlgos(algos.(keyAgreement := KEYAGREEMENT_MULT));
          ret := SendPacket(Some(HelloAck));
        } else {
          ret := Refused(ERROR_MULTICHANNELNOTSUPPORTEDBYPEER);
        }
      } else {
        LoadCachedSecrets(m.body.hello.h3);
        ret := CreateDhPart2();
      }
    }

    method SetAlgos(chosen: Algos)
      modifies this`algos
      ensures View() == old(View()).(algos := chosen)
    {
      algos := chosen;
    }

    method SetState(state: State)
      modifies this`stateMachine
      ensures View() == old(View()).(state := state)
    {
      stateMachine := state;
    }

    /** bzrtp_responseToHelloMessage. */
    method RespondToHello(m: Message) returns (ret: Ret)
      requires IsHello(Some(m))
      modifies this
      ensures Does(ResponseToHello(c, old(View()), m), ret)
    {
      var hello := m.body.hello;
      if |hello.version| < 3 || hello.version[..3] != ZRTP_VERSION[..3] {
        return Refused(ERROR_UNSUPPORTEDZRTPVERSION);
      }
      var lists := Received(hello.lists);
      var code, chosen := CryptoAlgoAgreement(cfg.lists, lists, algos);
      SetAlgos(chosen);
      if code != 0 {
        return Refused(code);
      }
      ret := Greet(m, lists);
    }

    // -------------------------------------------------------------------
    // INIT events

    /** state_keyAgreement_sendingCommit on INIT: the Commit is created and sent
        for the first time. */
    method InitSendingCommit() returns (ret: Ret)
      modifies this`selfCommit, this`keyAgreementAlgo, this`keyAgreementContext, this`sent
      ensures Does(EnterSendingCommit(c, old(View())), ret)
    {
      var ka := algos.keyAgreement;
      if selfCommit.Some? || CommitVariableLength(c, ka) == 0 {
        return Done;
      }
      var hvi, pv, nonce := [], [], [];
      if NonDh(ka) {
        nonce := cfg.randoms.commitNonce;
      } else {
        if !IsSigned(selfDhPart) || !IsSigned(peerHello) {
          return Fault;
        }
        hvi := Hvi(c, algos.hash, selfDhPart.value, peerHello.value);
        if IsKem(ka) {
          pv := c.kemPublic(ka, algos.hash, cfg.randoms.kemSeed);
          SetKeyAgreement(ka, KemKeyPair(algos.hash, cfg.randoms.kemSeed));
        }
      }
      SetSelfCommit(Some(CommitPacket(c, cfg, algos, hvi, pv, nonce)));
      ret := SendPacket(selfCommit);
    }

    method SetSelfCommit(packet: Option<Message>)
      modifies this`selfCommit
      ensures View() == old(View()).(selfCommit := packet)
    {
      selfCommit := packet;
    }

    method SetSelfConfirm(packet: Message)
      modifies this`selfConfirm
      ensures View() == old(View()).(selfConfirm := Some(packet))
    {
      selfConfirm := Some(packet);
    }

    method CreateConfirm1() returns (ret: Ret)
      modifies this`selfConfirm, this`sent
      ensures Does(SendConfirm1(c, old(View())), ret)
    {
      if keys.None? {
        return Refused(if algos.keyAgreement == KEYAGREEMENT_PRSH then BUILDER_ERROR_INVALIDCONTEXT else ERROR_INVALIDCONTEXT);
      }
      SetSelfConfirm(Confirm1(ConfirmPacket(c, cfg, algos, pvs, keys.value.mackeyr, keys.value.zrtpkeyr)));
      ret := SendPacket(selfConfirm);
    }

    /** state_confirmation_responderSendingConfirm1 on INIT. */
    method InitResponderSendingConfirm1() returns (ret: Ret)
      modifies this`kdfContext, this`s0, this`keys, this`selfConfirm, this`sent
      ensures Does(EnterResponderSendingConfirm1(c, old(View())), ret)
    {
      if algos.keyAgreement == KEYAGREEMENT_MULT {
        if zrtpSess.None? {
          return Refused(ERROR_INVALIDCONTEXT);
        }
        var ok := ComputeS0MultiStreamMode();
        if !ok {
          return Fault;
        }
      }
      ret := CreateConfirm1();
    }

    /** state_keyAgreement_responderSendingDHPart1 on INIT. */
    method InitResponderSendingDhPart1() returns (ret: Ret)
      modifies this`sent
      ensures Does(EnterResponderSendingDhPart1(old(View())), ret)
    {
      if selfDhPart.None? {
        return Refused(ERROR_INVALIDCONTEXT);
      }
      ret := SendPacket(selfDhPart);
    }

    /** state_confirmation_initiatorSendingConfirm2 on INIT. */
    method InitInitiatorSendingConfirm2() returns (ret: Ret)
      modifies this`selfConfirm, this`srtpSecrets, this`sent
      ensures Does(EnterInitiatorSendingConfirm2(c, old(View())), ret)
    {
      if keys.None? {
        return Refused(ERROR_INVALIDCONTEXT);
      }
      SetSelfConfirm(Confirm2(ConfirmPacket(c, cfg, algos, pvs, keys.value.mackeyi, keys.value.zrtpkeyi)));
      var ok := DeriveSrtpKeysFromS0();
      if !ok {
        return Fault;
      }
      ret := SendPacket(selfConfirm);
    }

    /** state_secure on INIT. */
    method InitSecure()
      modifies this`stateMachine, this`isSecure, this`contextIsSecure
      ensures View() == EnterSecure(old(View()))
    {
      stateMachine := Secure;
      if algos.keyAgreement != KEYAGREEMENT_MULT {
        contextIsSecure := true;
      }
      isSecure := true;
    }

    // -------------------------------------------------------------------
    // Becoming responder

    method EnterResponder() returns (ret: Ret)
      modifies this
      ensures Does(EnterResponderState(c, old(View())), ret)
    {
      if NonDh(algos.keyAgreement) {
        ret := MoveToSendingConfirm1();
      } else {
        SetState(ResponderSendingDhPart1);
        ret := InitResponderSendingDhPart1();
      }
    }

    method StoreCommit(m: Message)
      requires IsCommit(Some(m))
      modifies this`peerCommit, this`role, this`algos
      ensures View() == old(View()).(peerCommit := Some(m), role := Responder, algos := m.body.commit.algos)
    {
      peerCommit := Some(m);
      role := Responder;
      algos := m.body.commit.algos;
    }

    method SwapAuxIds()
      modifies this`ids
      ensures View() == old(View()).(ids := SwapAux(old(View()).ids))
    {
      var tmpBuffer := ids.initiatorAux;
      ids := ids.(initiatorAux := ids.responderAux);
      ids := ids.(responderAux := tmpBuffer);
    }

    /** bzrtp_turnIntoResponder. */
    method BecomeResponder(m: Message) returns (ret: Ret)
      requires IsCommit(Some(m))
      modifies this
      ensures Does(TurnIntoResponder(c, old(View()), m), ret)
    {
      var commit := m.body.commit;
      var ka := commit.algos.keyAgreement;
      StoreCommit(m);
      if selfDhPart.Some? {
        SwapAuxIds();
        if IsKem(ka) {
          var pv := c.kemCipherText(ka, commit.algos.hash, commit.pv, cfg.randoms.kemCoins);
          SetSelfDhPart(DhPart1Packet(c, cfg, ids, pv));
          SetKeyAgreement(ka, KemShared(c.kemSecret(ka, commit.algos.hash, commit.pv, cfg.randoms.kemCoins)));
        } else {
          var length := DhPartValueLength(c, ka, true);
          if !IsDhPart(selfDhPart) || length > |selfDhPart.value.body.dhPart.pv| {
            return Fault;
          }
          if length == 0 {
            return Refused(BUILDER_ERROR_INVALIDCONTEXT);
          }
          SetSelfDhPart(DhPart1Packet(c, cfg, ids, selfDhPart.value.body.dhPart.pv[..length]));
        }
      }
      ret := EnterResponder();
    }

    // -------------------------------------------------------------------
    // Message events

    method StateDiscoveryInit(m: Message) returns (ret: Ret)
      modifies this
      ensures Does(OnDiscoveryInit(c, old(View()), m), ret)
    {
      if IsHello(Some(m)) {
        ret := RespondToHello(m);
        if ret == Done {
          SetState(WaitingForHelloAck);
        }
      } else if m.HelloAck? {
        SetState(WaitingForHello);
        ret := Done;
      } else {
        ret := Refused(PARSER_ERROR_UNEXPECTEDMESSAGE);
      }
    }

    method StateWaitingForHello(m: Message) returns (ret: Ret)
      modifies this
      ensures Does(OnWaitingForHello(c, old(View()), m), ret)
    {
      if !IsHello(Some(m)) {
        return Refused(PARSER_ERROR_UNEXPECTEDMESSAGE);
      }
      ghost var before, o := sent, ResponseToHello(c, View(), m);
      ret := RespondToHello(m);
      if ret == Done {
        ret := ContinueToSendingCommit(before, o);
      }
    }

    method ContinueToSendingCommit(ghost before: seq<Message>, ghost o: Outcome) returns (ret: Ret)
      requires View() == o.next && sent == before + o.sent
      modifies this`stateMachine, this`selfCommit, this`keyAgreementAlgo, this`keyAgreementContext, this`sent
      ensures var p := EnterSendingCommit(c, o.next.(state := SendingCommit));
              ret == p.ret && (ret != Fault ==> View() == p.next && sent == before + (o.sent + p.sent))
    {
      ret := MoveToSendingCommit();
    }

    method MoveToSendingCommit() returns (ret: Ret)
      modifies this`stateMachine, this`selfCommit, this`keyAgreementAlgo, this`keyAgreementContext, this`sent
      ensures Does(EnterSendingCommit(c, old(View()).(state := SendingCommit)), ret)
    {
      SetState(SendingCommit);
      ret := InitSendingCommit();
    }

    method StateWaitingForHelloAck(m: Message) returns (ret: Ret)
      modifies this
      ensures Does(OnWaitingForHelloAck(c, old(View()), m), ret)
    {
      if IsHello(Some(m)) {
        ret := CheckRepetition(m, peerHello);
        if ret == Done {
          ret := SendPacket(Some(HelloAck));
        }
      } else if m.HelloAck? {
        ret := MoveToSendingCommit();
      } else if IsCommit(Some(m)) {
        var code := ParseCommit(c, View(), m.body.commit);
        if code != 0 {
          return Refused(code);
        }
        ret := BecomeResponder(m);
      } else {
        ret := Refused(PARSER_ERROR_UNEXPECTEDMESSAGE);
      }
    }

    /** A packet received again must be the stored one. */
    method CheckRepetition(m: Message, stored: Option<Message>) returns (ret: Ret)
      ensures ret == if stored.None? then Fault else if Repeats(c, m, stored.value) then Done else Refused(ERROR_UNMATCHINGPACKETREPETITION)
    {
      if stored.None? {
        return Fault;
      }
      if Repeats(c, m, stored.value) {
        return Done;
      }
      ret := Refused(ERROR_UNMATCHINGPACKETREPETITION);
    }

    /** Confirm1, s0 being derived. */
    method ReceiveConfirm1(m: Message) returns (ret: Ret)
      requires m.Confirm1?
      modifies this
      ensures Does(OnConfirm1(c, old(View()), m), ret)
    {
      var code := ParseConfirm(c, View(), m.confirm);
      if code != 0 || keys.None? {
        return Refused(code);
      }
      StoreConfirm(m, OpenedConfirm(c, View(), m.confirm), !NonDh(algos.keyAgreement));
      SetState(InitiatorSendingConfirm2);
      ret := InitInitiatorSendingConfirm2();
    }

    method StoreConfirm(m: Message, body: ConfirmBody, firstChannel: bool)
      modifies this`peerH0, this`peerPvs, this`peerConfirm
      ensures View() == old(View()).(peerH0 := body.h0, peerPvs := if firstChannel then body.v else old(View()).peerPvs, peerConfirm := Some(m))
    {
      peerH0 := body.h0;
      if firstChannel {
        peerPvs := body.v;
      }
      peerConfirm := Some(m);
    }

    method StateSendingCommit(m: Message) returns (ret: Ret)
      modifies this
      ensures Does(OnSendingCommit(c, old(View()), m), ret)
    {
      if m.Confirm1? {
        if !NonDh(algos.keyAgreement) {
          return Refused(PARSER_ERROR_UNEXPECTEDMESSAGE);
        }
        ret := ReceiveConfirm1WithoutDhPart(m);
      } else if m.Signed? && m.body.DhPart1Body? {
        if algos.keyAgreement == KEYAGREEMENT_PRSH {
          return Refused(PARSER_ERROR_UNEXPECTEDMESSAGE);
        }
        var code := ParseDhPart(c, View(), m, true);
        if code != 0 {
          return Refused(code);
        }
        ret := ReceiveDhPart1(m);
      } else if IsCommit(Some(m)) {
        var code := ParseCommit(c, View(), m.body.commit);
        if code != 0 {
          return Refused(code);
        }
        ret := Contend(m);
      } else {
        ret := Refused(PARSER_ERROR_UNEXPECTEDMESSAGE);
      }
    }

    method ReceiveConfirm1WithoutDhPart(m: Message) returns (ret: Ret)
      requires m.Confirm1?
      modifies this
      ensures Does(OnCommitConfirmed(c, old(View()), m), ret)
    {
      if algos.keyAgreement == KEYAGREEMENT_MULT {
        var ok := ComputeS0MultiStreamMode();
        if !ok {
          return Fault;
        }
      }
      ret := ReceiveConfirm1(m);
    }

    /** Commit contention. */
    method Contend(m: Message) returns (ret: Ret)
      requires IsCommit(Some(m))
      modifies this
      ensures Does(Contention(c, old(View()), m), ret)
    {
      if !IsCommit(selfCommit) || !IsHello(peerHello) {
        return Fault;
      }
      if GivesWay(selfCommit.value.body.commit, m.body.commit, false, peerHello.value.body.hello.m) {
        SetRole(Responder);
        SetSelfCommit(None);
        ret := BecomeResponder(m);
      } else {
        ret := Done;
      }
    }

    method SetRole(newRole: Role)
      modifies this`role
      ensures View() == old(View()).(role := newRole)
    {
      role := newRole;
    }

    /** The comparison of the identifiers of the auxiliary and pbx secrets, and
        what follows a mismatch of the retained ones. */
    method StoreMatch(retained: Match, auxId: Bytes, pbxId: Bytes, dhPart: DhPart)
      modifies this`secrets, this`auxSecretMismatch, this`cacheMismatchFlag, this`pvs
      ensures View() == WithMatched(old(View()), retained, auxId, pbxId, dhPart)
    {
      StoreOtherMatch(auxId, pbxId, dhPart, retained.secrets);
      StoreMismatch(retained.mismatch);
    }

    method StoreOtherMatch(auxId: Bytes, pbxId: Bytes, dhPart: DhPart, retained: Retained)
      modifies this`secrets, this`auxSecretMismatch
      ensures View() == old(View()).(
                secrets := Secrets(retained, MatchOther(old(secrets).aux, auxId, dhPart.auxId), MatchOther(old(secrets).pbx, pbxId, dhPart.pbxId)),
                auxStatus := MatchStatus(old(secrets).aux, auxId, dhPart.auxId, old(auxSecretMismatch)))
    {
      var aux, pbx := secrets.aux, secrets.pbx;
      if aux.Some? {
        if auxId != dhPart.auxId {
          aux := None;
          auxSecretMismatch := AuxMismatch;
        } else {
          auxSecretMismatch := AuxMatch;
        }
      }
      if pbx.Some? && pbxId != dhPart.pbxId {
        pbx := None;
      }
      secrets := Secrets(retained, aux, pbx);
    }

    method StoreMismatch(mismatch: bool)
      modifies this`cacheMismatchFlag, this`pvs
      ensures View() == old(View()).(cacheMismatch := mismatch, pvs := old(pvs) && !mismatch)
    {
      cacheMismatchFlag := mismatch;
      if mismatch {
        pvs := false;
      }
    }

    method StoreMatchedDhPart(m: Message, retained: Match, auxId: Bytes, pbxId: Bytes)
      requires IsDhPart(Some(m))
      modifies this`secrets, this`auxSecretMismatch, this`cacheMismatchFlag, this`pvs, this`peerDhPart
      ensures View() == WithMatched(old(View()), retained, auxId, pbxId, m.body.dhPart).(peerDhPart := Some(m))
    {
      StoreMatch(retained, auxId, pbxId, m.body.dhPart);
      peerDhPart := Some(m);
    }

    /** DHPart1 parsed by an end that sends Commits. */
    method ReceiveDhPart1(m: Message) returns (ret: Ret)
      requires IsDhPart(Some(m))
      modifies this
      ensures Does(OnDhPart1(c, old(View()), m), ret)
    {
      var dhPart := m.body.dhPart;
      var retained := MatchAsInitiator(SecretIds(dhPart.rs1Id, dhPart.rs2Id));
      StoreMatchedDhPart(m, retained, ids.responderAux, ids.responderPbx);
      var ok := ComputeS0DhMode();
      if !ok {
        return Fault;
      }
      SetState(InitiatorSendingDhPart2);
      ret := SendPacket(selfDhPart);
    }

    /** The retained secret comparison of the initiator, with its nested tests. */
    method MatchAsInitiator(received: SecretIds) returns (retained: Match)
      ensures retained == InitiatorMatch(secrets.retained, cacheMismatchFlag, ids.responder, received)
    {
      var rs1, rs2, mismatch := secrets.retained.rs1, secrets.retained.rs2, cacheMismatchFlag;
      if rs1.Some? {
        if ids.responder.rs1 != received.rs1 {
          if ids.responder.rs1 != received.rs2 {
            rs1 := None;
            mismatch := true;
          }
        }
      }
      if mismatch && rs2.Some? {
        if ids.responder.rs2 != received.rs1 {
          if ids.responder.rs2 != received.rs2 {
            rs2 := None;
          } else {
            mismatch := false;
          }
        } else {
          mismatch := false;
        }
      }
      retained := Match(Retained(rs1, rs2), mismatch);
    }

    /** The retained secret comparison of the responder. */
    method MatchAsResponder(received: SecretIds) returns (retained: Match)
      ensures retained == ResponderMatch(secrets.retained, cacheMismatchFlag, ids.initiator, received)
    {
      var rs1, rs2, mismatch := secrets.retained.rs1, secrets.retained.rs2, cacheMismatchFlag;
      var cacheMatchFlag := false;
      if rs1.Some? {
        if ids.initiator.rs1 != received.rs1 {
          if rs2.Some? {
            if ids.initiator.rs2 == received.rs1 {
              cacheMatchFlag := true;
              rs1 := None;
            }
          }
        } else {
          cacheMatchFlag := true;
        }
      }
      if rs1.Some? && !cacheMatchFlag {
        if ids.initiator.rs1 != received.rs2 {
          rs1 := None;
          if rs2.Some? {
            if ids.initiator.rs2 != received.rs2 {
              rs2 := None;
              mismatch := true;
            }
          } else {
            mismatch := true;
          }
        }
      }
      retained := Match(Retained(rs1, rs2), mismatch);
    }

    method StateResponderSendingDhPart1(m: Message) returns (ret: Ret)
      modifies this
      ensures Does(OnResponderSendingDhPart1(c, old(View()), m), ret)
    {
      if selfDhPart.None? {
        return Refused(ERROR_INVALIDCONTEXT);
      }
      if IsCommit(Some(m)) {
        ret := CheckRepetition(m, peerCommit);
        if ret == Done {
          ret := SendPacket(selfDhPart);
        }
      } else if m.Signed? && m.body.DhPart2Body? {
        var code := ParseDhPart(c, View(), m, false);
        if code != 0 {
          return Refused(code);
        }
        ret := ReceiveDhPart2(m);
      } else {
        ret := Refused(PARSER_ERROR_UNEXPECTEDMESSAGE);
      }
    }

    /** DHPart2 parsed by the responder. */
    method ReceiveDhPart2(m: Message) returns (ret: Ret)
      requires IsDhPart(Some(m))
      modifies this
      ensures Does(OnDhPart2(c, old(View()), m), ret)
    {
      var dhPart := m.body.dhPart;
      var retained := MatchAsResponder(SecretIds(dhPart.rs1Id, dhPart.rs2Id));
      StoreMatchedDhPart(m, retained, ids.initiatorAux, ids.initiatorPbx);
      var ok := ComputeS0DhMode();
      if !ok {
        return Fault;
      }
      ret := MoveToSendingConfirm1();
    }

    method MoveToSendingConfirm1() returns (ret: Ret)
      modifies this`stateMachine, this`kdfContext, this`s0, this`keys, this`selfConfirm, this`sent
      ensures Does(EnterResponderSendingConfirm1(c, old(View()).(state := ResponderSendingConfirm1)), ret)
    {
      SetState(ResponderSendingConfirm1);
      ret := InitResponderSendingConfirm1();
    }

    method StateInitiatorSendingDhPart2(m: Message) returns (ret: Ret)
      modifies this
      ensures Does(OnInitiatorSendingDhPart2(c, old(View()), m), ret)
    {
      if m.Signed? && m.body.DhPart1Body? {
        ret := CheckRepetition(m, peerDhPart);
      } else if m.Confirm1? {
        ret := ReceiveConfirm1(m);
      } else {
        ret := Refused(PARSER_ERROR_UNEXPECTEDMESSAGE);
      }
    }

    method StateResponderSendingConfirm1(m: Message) returns (ret: Ret)
      modifies this
      ensures Does(OnResponderSendingConfirm1(c, old(View()), m), ret)
    {
      if IsCommit(Some(m)) {
        if !NonDh(algos.keyAgreement) {
          return Refused(PARSER_ERROR_UNEXPECTEDMESSAGE);
        }
        ret := CheckRepetition(m, peerCommit);
        if ret == Done {
          ret := SendPacket(selfConfirm);
        }
      } else if m.Signed? && m.body.DhPart2Body? {
        if NonDh(algos.keyAgreement) {
          return Refused(PARSER_ERROR_UNEXPECTEDMESSAGE);
        }
        ret := CheckRepetition(m, peerDhPart);
        if ret == Done {
          ret := SendPacket(selfConfirm);
        }
      } else if m.Confirm2? {
        var code := ParseConfirm(c, View(), m.confirm);
        if code != 0 || keys.None? {
          return Refused(code);
        }
        ret := ReceiveConfirm2(m);
      } else {
        ret := Refused(PARSER_ERROR_UNEXPECTEDMESSAGE);
      }
    }

    /** Confirm2 parsed by the responder. */
    method ReceiveConfirm2(m: Message) returns (ret: Ret)
      requires m.Confirm2? && keys.Some?
      modifies this
      ensures Does(OnConfirm2(c, old(View()), m), ret)
    {
      StoreConfirm(m, OpenedConfirm(c, View(), m.confirm), algos.keyAgreement != KEYAGREEMENT_MULT);
      ret := FinishResponder();
    }

    method FinishResponder() returns (ret: Ret)
      modifies this
      ensures Does(SecureResponder(c, old(View())), ret)
    {
      var ok := DeriveSrtpKeysFromS0();
      if !ok {
        return Fault;
      }
      ok := UpdateSecrets();
      if !ok {
        return Fault;
      }
      ret := SendPacket(Some(Conf2Ack));
      InitSecure();
    }

    method StateInitiatorSendingConfirm2(m: Message) returns (ret: Ret)
      modifies this
      ensures Does(OnInitiatorSendingConfirm2(c, old(View()), m), ret)
    {
      if m.Confirm1? {
        ret := CheckRepetition(m, peerConfirm);
      } else if m.Conf2Ack? {
        var ok := UpdateSecrets();
        if !ok {
          return Fault;
        }
        InitSecure();
        ret := Done;
      } else {
        ret := Refused(PARSER_ERROR_UNEXPECTEDMESSAGE);
      }
    }

    method StateSecure(m: Message) returns (ret: Ret)
      modifies this`sent
      ensures Does(OnSecure(c, old(View()), m), ret)
    {
      if m.Confirm2? {
        ret := CheckRepetition(m, peerConfirm);
        if ret == Done {
          ret := SendPacket(Some(Conf2Ack));
        }
      } else {
        ret := Refused(PARSER_ERROR_UNEXPECTEDMESSAGE);
      }
    }

    // -------------------------------------------------------------------
    // Dispatch

    /** bzrtp_processMessage, after the packet checks. */
    method ProcessMessage(m: Message) returns (ret: Ret)
      modifies this
      ensures Does(Receive(c, old(View()), m), ret)
    {
      match stateMachine
      case DiscoveryInit => ret := StateDiscoveryInit(m);
      case WaitingForHello => ret := StateWaitingForHello(m);
      case WaitingForHelloAck => ret := StateWaitingForHelloAck(m);
      case SendingCommit => ret := StateSendingCommit(m);
      case ResponderSendingDhPart1 => ret := StateResponderSendingDhPart1(m);
      case InitiatorSendingDhPart2 => ret := StateInitiatorSendingDhPart2(m);
      case ResponderSendingConfirm1 => ret := StateResponderSendingConfirm1(m);
      case InitiatorSendingConfirm2 => ret := StateInitiatorSendingConfirm2(m);
      case Secure => ret := StateSecure(m);
    }

    /** The timer event of the state functions that have one. */
    method ProcessTimer() returns (ret: Ret)
      modifies this`sent
      ensures Does(Tick(c, old(View())), ret)
    {
      match stateMachine
      case DiscoveryInit => ret := SendPacket(Some(SelfHello(c, cfg)));
      case WaitingForHelloAck => ret := SendPacket(Some(SelfHello(c, cfg)));
      case SendingCommit => ret := SendPacket(selfCommit);
      case InitiatorSendingDhPart2 => ret := SendPacket(selfDhPart);
      case InitiatorSendingConfirm2 => ret := SendPacket(selfConfirm);
      case _ => ret := Done;
    }
  }
}
