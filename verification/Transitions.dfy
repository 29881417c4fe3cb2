/** What each message of an honest peer does to an end, stage by stage: exactly
    one step of the script. Each lemma asks only for the part of the script its
    step depends on. */
module Transitions {
  import opened Octets
  import opened Negotiation
  import opened Agreement
  import opened RetainedSecrets
  import opened Messages
  import opened Protocol
  import opened Exchange

  // ---------------------------------------------------------------------
  // Discovery

  /** The algorithms x has chosen before the mode of the channel is known. */
  function Chosen(x: Party, y: Party): Algos {
    Agree(x.cfg.lists, Received(y.cfg.lists), UNSET_ALGOS).1
  }

  lemma PeerGreeted(c: Crypto, x: Party, y: Party, t: Script, e: Endpoint, algos: Algos)
    requires OneMode(x, y) && x.algos == if MultiStream(x.cfg) then algos.(keyAgreement := KEYAGREEMENT_MULT) else algos
    requires t.responderHello == SelfHello(c, y.cfg) && t.initiatorIds == IdsOf(c, x, y)
    requires t.dhPart2 == DhPart2Packet(c, x.cfg, t.initiatorIds, DhValue(c, x))
    requires e == Start(x.cfg).(algos := algos, state := e.state)
    ensures var o := GreetPeer(c, e, t.responderHello, Received(y.cfg.lists));
            && o.ret == Done && o.sent == [HelloAck] && o.next.state == e.state
            && IsGreeted(x, y, t, o.next.(state := WaitingForHelloAck))
  {
    EveryHelloOffersMult(y.cfg.lists);
  }

  lemma HelloGreets(c: Crypto, x: Party, y: Party, t: Script, e: Endpoint)
    requires OneMode(x, y) && Selects(x, y) && MessagesOf(c, x, y, t)
    requires e == Start(x.cfg) || e == Start(x.cfg).(state := WaitingForHello)
    ensures var o := ResponseToHello(c, e, t.responderHello);
            && o.ret == Done && o.sent == [HelloAck] && o.next.state == e.state
            && IsGreeted(x, y, t, o.next.(state := WaitingForHelloAck))
  {
    var algos := Chosen(x, y);
    PeerGreeted(c, x, y, t, e.(algos := algos), algos);
    assert ResponseToHello(c, e, t.responderHello) == GreetPeer(c, e.(algos := algos), t.responderHello, Received(y.cfg.lists));
  }

  lemma CommitStarts(c: Crypto, x: Party, y: Party, t: Script, e: Endpoint)
    requires OneMode(x, y) && AllSigned(t) && t.commit == CommitFrom(c, x, t.dhPart2, t.responderHello)
    requires IsGreeted(x, y, t, e.(state := WaitingForHelloAck)) && e.state == SendingCommit
    ensures var o := EnterSendingCommit(c, e);
            o.ret == Done && o.sent == [t.commit] && IsCommitting(x, y, t, o.next)
  {
  }

  // ---------------------------------------------------------------------
  // Becoming responder

  lemma CommitAccepted(c: Crypto, x: Party, y: Party, u: Script, e: Endpoint)
    requires OneMode(x, y) && LengthsHold(c, y, x, u)
    requires u.initiatorHello == SelfHello(c, y.cfg) && u.commit == CommitFrom(c, y, u.dhPart2, u.responderHello)
    requires Knows(x, y, u.initiatorHello, e)
    ensures ParseCommit(c, e, u.commit.body.commit) == 0
  {
  }

  lemma CommitTurnsIntoResponder(c: Crypto, x: Party, y: Party, t: Script, u: Script, e: Endpoint)
    requires OneMode(x, y) && !NonDh(x.Ka()) && LengthsHold(c, x, y, t) && AllSigned(u)
    requires MessagesOf(c, y, x, u) && u.initiatorHello == t.responderHello && u.responderIds == SwapAux(t.initiatorIds)
    requires t.dhPart2 == DhPart2Packet(c, x.cfg, t.initiatorIds, DhValue(c, x)) && u.shared == SharedOf(c, y, x)
    requires Prepared(x, y, t, e)
    ensures var o := TurnIntoResponder(c, e, u.commit);
            o.ret == Done && o.sent == [u.dhPart1] && IsResponding(x, y, u, o.next)
  {
    if !IsKem(x.Ka()) {
      assert DhValue(c, x)[..|DhValue(c, x)|] == DhValue(c, x);
    }
  }

  lemma ResponderComputesMultS0(c: Crypto, i: Party, r: Party, t: Script, e: Endpoint)
    requires i.Ka() == KEYAGREEMENT_MULT && KeysOf(c, i, r, t) && t.responderHello == SelfHello(c, r.cfg)
    requires e.cfg == r.cfg && e.role == Responder && e.algos == i.algos && e.peerZid == i.cfg.zid && e.zrtpSess == i.cfg.zrtpSess
    requires e.peerCommit == Some(t.commit)
    ensures ComputeS0Mult(c, e) == Some(WithMultKeys(t, e))
  {
  }

  function WithMultKeys(t: Script, e: Endpoint): Endpoint {
    e.(kdfContext := Some(t.kdfContext), s0 := Some(t.s0), keys := Some(t.keys))
  }

  lemma CommitTurnsIntoConfirming(c: Crypto, x: Party, y: Party, t: Script, u: Script, e: Endpoint)
    requires OneMode(x, y) && NonDh(x.Ka()) && u.initiatorHello == t.responderHello
    requires AllSigned(u) && u.responderHello == SelfHello(c, x.cfg) && u.commit == CommitFrom(c, y, u.dhPart2, u.responderHello)
    requires KeysOf(c, y, x, u) && ConfirmsOf(c, y, x, u)
    requires Prepared(x, y, t, e)
    ensures var o := TurnIntoResponder(c, e, u.commit);
            o.ret == Done && o.sent == [u.confirm1] && IsResponderConfirming(x, y, u, o.next)
  {
    var responder := e.(peerCommit := Some(u.commit), role := Responder, algos := y.algos, state := ResponderSendingConfirm1);
    ResponderComputesMultS0(c, y, x, u, responder);
    Confirm1Sent(c, x, y, u, WithMultKeys(u, responder));
  }

  lemma Confirm1Sent(c: Crypto, x: Party, y: Party, u: Script, e: Endpoint)
    requires ConfirmsOf(c, y, x, u) && u.confirm1.Confirm1?
    requires IsResponderConfirming(x, y, u, e.(selfConfirm := Some(u.confirm1))) && e.pvs == (x.cfg.pvs && !e.cacheMismatch)
    ensures SendConfirm1(c, e) == Outcome(e.(selfConfirm := Some(u.confirm1)), [u.confirm1], Done)
  {
  }

  // ---------------------------------------------------------------------
  // DHPart

  /** The secret comparisons at both ends come out as the reference says. */
  lemma SecretsMatch(c: Crypto, i: Party, r: Party, t: Script)
    requires WellFormed(i.cfg.retained) && WellFormed(r.cfg.retained)
    requires MessagesOf(c, i, r, t) && MatchesOf(i, r, t) && IdsTellApart(i, r, IdsOf(c, i, r), IdsOf(c, r, i))
    ensures S1(t.initiatorMatch.secrets) == S1Of(i, r) == S1(t.responderMatch.secrets)
    ensures t.initiatorMatch.mismatch <==> i.cfg.retained.rs1.Some? && S1Of(i, r) == None
    ensures t.responderMatch.mismatch <==> r.cfg.retained.rs1.Some? && S1Of(i, r) == None
  {
    BothEndsPickTheSharedSecret(SameHash(i, r), i.cfg.retained, r.cfg.retained, t.initiatorIds.responder,
                                t.responderIds.responder, t.initiatorIds.initiator, t.responderIds.initiator);
  }

  lemma DhPart1Accepted(c: Crypto, x: Party, y: Party, t: Script, e: Endpoint)
    requires OneMode(x, y) && !NonDh(x.Ka()) && LengthsHold(c, x, y, t)
    requires t.responderHello == SelfHello(c, y.cfg) && t.dhPart1 == DhPart1Packet(c, y.cfg, t.responderIds, AnswerValue(c, y, x))
    requires e.role == Initiator && e.algos.keyAgreement == x.Ka() && e.peerHello == Some(t.responderHello)
    ensures ParseDhPart(c, e, t.dhPart1, true) == 0
  {
  }

  lemma DhPart2Accepted(c: Crypto, x: Party, y: Party, u: Script, e: Endpoint)
    requires OneMode(x, y) && LengthsHold(c, y, x, u) && MessagesOf(c, y, x, u)
    requires !NonDh(y.Ka()) && e.cfg == x.cfg && e.role == Responder && e.algos == y.algos && e.peerCommit == Some(u.commit)
    ensures ParseDhPart(c, e, u.dhPart2, false) == 0
  {
  }

  /** The endpoint once s0 is derived. */
  function WithKeys(t: Script, zrtpSessContext: Bytes, e: Endpoint): Endpoint {
    e.(kdfContext := Some(t.kdfContext), s0 := Some(t.s0), zrtpSess := t.sessionKey,
       zrtpSessContext := zrtpSessContext, kaAlgo := UNSET_ALGO, kaContext := None, keys := Some(t.keys))
  }

  predicate HasSecretsOf(i: Party, r: Party, e: Endpoint) {
    S1(e.secrets.retained) == S1Of(i, r) && e.secrets.aux == S2Of(i, r) && e.secrets.pbx == S3Of(i, r)
  }

  /** bzrtp_computeS0DHMMode gives both ends the script's keys: total_hash over
      the same four messages, the shared value whichever way it is computed, and
      the secrets that matched. */
  lemma InitiatorComputesS0(c: Crypto, i: Party, r: Party, t: Script, e: Endpoint)
    requires !NonDh(i.Ka()) && (IsDiffieHellman(i.Ka()) || IsKem(i.Ka())) && ExchangeWorks(c, i, r)
    requires KeysOf(c, i, r, t) && t.dhPart1.body.dhPart.pv == AnswerValue(c, r, i)
    requires e.cfg == i.cfg && e.role == Initiator && e.algos == i.algos && e.peerZid == r.cfg.zid
    requires e.peerHello == Some(t.responderHello) && e.selfCommit == Some(t.commit)
    requires e.selfDhPart == Some(t.dhPart2) && e.peerDhPart == Some(t.dhPart1) && e.kaAlgo == i.Ka()
    requires e.kaContext == Some(if IsDiffieHellman(i.Ka()) then DhKey(i.cfg.randoms.dhPrivate) else KemKeyPair(i.algos.hash, i.cfg.randoms.kemSeed))
    requires HasSecretsOf(i, r, e)
    ensures ComputeS0Dh(c, e) == Some(WithKeys(t, r.cfg.zid, e))
  {
    assert SharedValue(c, e.kaAlgo, e.kaContext.value, t.dhPart1.body.dhPart.pv) == t.shared;
  }

  lemma ResponderComputesS0(c: Crypto, i: Party, r: Party, t: Script, e: Endpoint)
    requires !NonDh(i.Ka()) && (IsDiffieHellman(i.Ka()) || IsKem(i.Ka())) && ExchangeWorks(c, i, r)
    requires KeysOf(c, i, r, t) && t.dhPart2.body.dhPart.pv == DhValue(c, i) && t.responderHello == SelfHello(c, r.cfg)
    requires e.cfg == r.cfg && e.role == Responder && e.algos == i.algos && e.peerZid == i.cfg.zid
    requires e.peerCommit == Some(t.commit)
    requires e.selfDhPart == Some(t.dhPart1) && e.peerDhPart == Some(t.dhPart2) && e.kaAlgo == i.Ka()
    requires e.kaContext == Some(if IsDiffieHellman(i.Ka()) then DhKey(r.cfg.randoms.dhPrivate) else KemShared(t.shared))
    requires HasSecretsOf(i, r, e)
    ensures ComputeS0Dh(c, e) == Some(WithKeys(t, r.cfg.zid, e))
  {
    assert SharedValue(c, e.kaAlgo, e.kaContext.value, t.dhPart2.body.dhPart.pv) == t.shared;
  }

  /** After the comparison of identifiers each end holds the shared secrets. */
  lemma InitiatorMatched(i: Party, r: Party, t: Script, e: Endpoint)
    requires IdsTellApart(i, r, t.initiatorIds, SwapAux(t.responderIds)) && S1(t.initiatorMatch.secrets) == S1Of(i, r)
    requires e.secrets == i.Secrets() && e.ids == t.initiatorIds
    requires AllSigned(t) && t.dhPart1.body.dhPart.auxId == t.responderIds.responderAux
                          && t.dhPart1.body.dhPart.pbxId == t.responderIds.responderPbx
    ensures HasSecretsOf(i, r, WithMatched(e, t.initiatorMatch, e.ids.responderAux, e.ids.responderPbx, t.dhPart1.body.dhPart))
  {
  }

  lemma ResponderMatched(i: Party, r: Party, t: Script, e: Endpoint)
    requires IdsTellApart(i, r, t.initiatorIds, SwapAux(t.responderIds)) && S1(t.responderMatch.secrets) == S1Of(i, r)
    requires e.secrets == r.Secrets() && e.ids == t.responderIds
    requires AllSigned(t) && t.dhPart2.body.dhPart.auxId == t.initiatorIds.initiatorAux
                          && t.dhPart2.body.dhPart.pbxId == t.initiatorIds.initiatorPbx
    ensures HasSecretsOf(i, r, WithMatched(e, t.responderMatch, e.ids.initiatorAux, e.ids.initiatorPbx, t.dhPart2.body.dhPart))
  {
  }

  lemma InitiatorDerives(c: Crypto, x: Party, y: Party, t: Script, e: Endpoint)
    requires OneMode(x, y) && ExchangeWorks(c, x, y) && IdsTellApart(x, y, IdsOf(c, x, y), IdsOf(c, y, x)) && !NonDh(x.Ka())
    requires MessagesOf(c, x, y, t) && MatchesOf(x, y, t) && KeysOf(c, x, y, t)
    requires S1(t.initiatorMatch.secrets) == S1Of(x, y) && t.initiatorMatch.mismatch == Mismatched(x, x, y)
    requires IsCommitting(x, y, t, e)
    ensures var o := OnDhPart1(c, e, t.dhPart1);
            o.ret == Done && o.sent == [t.dhPart2] && IsInitiating(x, y, t, o.next)
  {
    InitiatorMatched(x, y, t, e);
    var matched := WithMatched(e, t.initiatorMatch, e.ids.responderAux, e.ids.responderPbx, t.dhPart1.body.dhPart);
    var ready := matched.(peerDhPart := Some(t.dhPart1));
    InitiatorComputesS0(c, x, y, t, ready);
    assert OnDhPart1(c, e, t.dhPart1) == InitiatorKeyed(matched, Some(WithKeys(t, y.cfg.zid, ready)));
  }

  lemma ResponderDerives(c: Crypto, x: Party, y: Party, u: Script, e: Endpoint)
    requires OneMode(x, y) && ExchangeWorks(c, y, x) && IdsTellApart(y, x, IdsOf(c, y, x), IdsOf(c, x, y))
    requires MessagesOf(c, y, x, u) && MatchesOf(y, x, u) && KeysOf(c, y, x, u) && ConfirmsOf(c, y, x, u)
    requires S1(u.responderMatch.secrets) == S1Of(y, x) && u.responderMatch.mismatch == Mismatched(x, y, x)
    requires IsResponding(x, y, u, e)
    ensures var o := OnDhPart2(c, e, u.dhPart2);
            o.ret == Done && o.sent == [u.confirm1] && IsResponderConfirming(x, y, u, o.next)
  {
    ResponderMatched(y, x, u, e);
    var matched := WithMatched(e, u.responderMatch, e.ids.initiatorAux, e.ids.initiatorPbx, u.dhPart2.body.dhPart);
    var ready := matched.(peerDhPart := Some(u.dhPart2));
    ResponderComputesS0(c, y, x, u, ready);
    var keyed := WithKeys(u, x.cfg.zid, ready);
    Confirm1Sent(c, x, y, u, keyed.(state := ResponderSendingConfirm1));
  }

  // ---------------------------------------------------------------------
  // Confirm

  /** A Confirm opens under the peer's key and reveals the H0 that ends the
      sender's hash chain. */
  lemma ConfirmOpens(c: Crypto, cfg: Config, algos: Algos, pvs: bool, mackey: Bytes, zrtpkey: Bytes)
    requires ConfirmsOpen(c) && |cfg.h0| == H0_LENGTH
    ensures var confirm := ConfirmPacket(c, cfg, algos, pvs, mackey, zrtpkey);
            && c.hmac(algos.hash, mackey, confirm.cipherText) == confirm.mac
            && c.readPlain(c.decrypt(algos.cipher, zrtpkey, confirm.iv, confirm.cipherText)).h0 == cfg.h0
  {
  }

  lemma Confirm1Accepted(c: Crypto, x: Party, y: Party, t: Script, e: Endpoint)
    requires OneMode(x, y) && ConfirmsOpen(c) && ConfirmsOf(c, x, y, t)
    requires t.responderHello == SelfHello(c, y.cfg)
    requires e.role == Initiator && e.algos == x.algos && e.keys == Some(t.keys) && e.peerHello == Some(t.responderHello)
    requires !NonDh(x.Ka()) ==> e.peerDhPart == Some(t.dhPart1) && t.dhPart1 == DhPart1Packet(c, y.cfg, t.responderIds, AnswerValue(c, y, x))
    ensures ParseConfirm(c, e, t.confirm1.confirm) == 0
    ensures OpenedConfirm(c, e, t.confirm1.confirm).h0 == y.cfg.h0
  {
    ConfirmOpens(c, y.cfg, x.algos, y.cfg.pvs && !Mismatched(y, x, y), t.keys.mackeyr, t.keys.zrtpkeyr);
  }

  lemma Confirm1Answered(c: Crypto, x: Party, y: Party, t: Script, e: Endpoint)
    requires OneMode(x, y) && ConfirmsOf(c, x, y, t) && t.confirm1.Confirm1?
    requires Knows(x, y, t.responderHello, e) && Keyed(x, y, t, e) && e.role == Initiator && e.s0 == Some(t.s0) && !e.isSecure
    requires !NonDh(x.Ka()) ==> e.secrets.retained == t.initiatorMatch.secrets
    requires e.cacheMismatch == Mismatched(x, x, y) && e.pvs == (x.cfg.pvs && !e.cacheMismatch)
    requires ParseConfirm(c, e, t.confirm1.confirm) == 0 && OpenedConfirm(c, e, t.confirm1.confirm).h0 == y.cfg.h0
    ensures var o := OnConfirm1(c, e, t.confirm1);
            o.ret == Done && o.sent == [t.confirm2] && IsInitiatorConfirming(x, y, t, o.next)
  {
  }

  lemma InitiatorConfirms(c: Crypto, x: Party, y: Party, t: Script, e: Endpoint)
    requires OneMode(x, y) && ConfirmsOpen(c) && ConfirmsOf(c, x, y, t) && IsInitiating(x, y, t, e)
    requires t.responderHello == SelfHello(c, y.cfg) && t.dhPart1 == DhPart1Packet(c, y.cfg, t.responderIds, AnswerValue(c, y, x))
    ensures var o := OnConfirm1(c, e, t.confirm1);
            o.ret == Done && o.sent == [t.confirm2] && IsInitiatorConfirming(x, y, t, o.next)
  {
    Confirm1Accepted(c, x, y, t, e);
    Confirm1Answered(c, x, y, t, e);
  }

  lemma InitiatorComputesMultS0(c: Crypto, i: Party, r: Party, t: Script, e: Endpoint)
    requires i.Ka() == KEYAGREEMENT_MULT && KeysOf(c, i, r, t)
    requires e.cfg == i.cfg && e.role == Initiator && e.algos == i.algos && e.peerZid == r.cfg.zid && e.zrtpSess == i.cfg.zrtpSess
    requires e.peerHello == Some(t.responderHello) && e.selfCommit == Some(t.commit)
    ensures ComputeS0Mult(c, e) == Some(WithMultKeys(t, e))
  {
  }

  lemma CommitConfirmed(c: Crypto, x: Party, y: Party, t: Script, e: Endpoint)
    requires OneMode(x, y) && ConfirmsOpen(c) && KeysOf(c, x, y, t) && ConfirmsOf(c, x, y, t) && NonDh(x.Ka())
    requires t.responderHello == SelfHello(c, y.cfg) && IsCommitting(x, y, t, e)
    ensures var o := OnCommitConfirmed(c, e, t.confirm1);
            o.ret == Done && o.sent == [t.confirm2] && IsInitiatorConfirming(x, y, t, o.next)
  {
    var keyed := WithMultKeys(t, e);
    InitiatorComputesMultS0(c, x, y, t, e);
    Confirm1Accepted(c, x, y, t, keyed);
    Confirm1Answered(c, x, y, t, keyed);
    assert OnCommitConfirmed(c, e, t.confirm1) == OnConfirm1(c, keyed, t.confirm1);
  }

  /** bzrtp_updateCachedSecrets leaves the new rs1, and the rs1 of the session as
      rs2, unless the secrets mismatched. */
  lemma CacheUpdated(c: Crypto, x: Party, i: Party, r: Party, t: Script, matched: Match, e: Endpoint)
    requires OneMode(i, r) && ConfirmsOf(c, i, r, t)
    requires e.algos == i.algos && e.s0 == Some(t.s0) && e.kdfContext == Some(t.kdfContext)
    requires e.cache == x.cfg.retained && e.cacheMismatch == Mismatched(x, i, r)
    requires !NonDh(i.Ka()) ==> e.secrets.retained == matched.secrets && matched.mismatch == e.cacheMismatch
    ensures UpdateCachedSecrets(c, e).Some?
    ensures var after := UpdateCachedSecrets(c, e).value;
            after == e.(cache := if NonDh(i.Ka()) then x.cfg.retained else Updated(x.cfg.retained, matched, t.newRs1, false),
                        s0 := if e.cacheMismatch then e.s0 else None, secrets := after.secrets)
  {
  }

  lemma Confirm2Accepted(c: Crypto, x: Party, y: Party, u: Script, e: Endpoint)
    requires OneMode(x, y) && ConfirmsOpen(c) && ConfirmsOf(c, y, x, u) && MessagesOf(c, y, x, u)
    requires IsResponderConfirming(x, y, u, e)
    ensures ParseConfirm(c, e, u.confirm2.confirm) == 0
    ensures OpenedConfirm(c, e, u.confirm2.confirm).h0 == y.cfg.h0
  {
    ConfirmOpens(c, y.cfg, y.algos, y.cfg.pvs && !Mismatched(y, y, x), u.keys.mackeyi, u.keys.zrtpkeyi);
  }

  lemma ResponderSecures(c: Crypto, x: Party, y: Party, u: Script, e: Endpoint)
    requires OneMode(x, y) && ConfirmsOf(c, y, x, u)
    requires !NonDh(y.Ka()) ==> u.responderMatch.mismatch == Mismatched(x, y, x)
    requires IsResponderConfirming(x, y, u, e) && OpenedConfirm(c, e, u.confirm2.confirm).h0 == y.cfg.h0
    ensures var o := OnConfirm2(c, e, u.confirm2);
            o.ret == Done && o.sent == [Conf2Ack] && IsResponderSecure(x, y, u, o.next)
  {
    var confirmed := e.(peerH0 := y.cfg.h0, peerConfirm := Some(u.confirm2), srtp := Some(u.responderSrtp),
                        peerPvs := if e.algos.keyAgreement != KEYAGREEMENT_MULT then OpenedConfirm(c, e, u.confirm2.confirm).v else e.peerPvs);
    CacheUpdated(c, x, y, x, u, u.responderMatch, confirmed);
  }

  lemma InitiatorSecures(c: Crypto, x: Party, y: Party, t: Script, e: Endpoint)
    requires OneMode(x, y) && ConfirmsOf(c, x, y, t)
    requires !NonDh(x.Ka()) ==> t.initiatorMatch.mismatch == Mismatched(x, x, y)
    requires IsInitiatorConfirming(x, y, t, e)
    ensures var o := OnInitiatorSendingConfirm2(c, e, Conf2Ack);
            o.ret == Done && o.sent == [] && IsInitiatorSecure(x, y, t, o.next)
  {
    CacheUpdated(c, x, x, y, t, t.initiatorMatch, e);
  }
}
