/** What a secure end knows of its peer, whatever messages it was sent: the hash
    chain and the MACs of section 9 of RFC 6189. */
module Authenticity {
  import opened Octets
  import opened Negotiation
  import opened Agreement
  import opened RetainedSecrets
  import opened Messages
  import opened Protocol

  /** The part of an end the checks are about. */
  datatype Seen = Seen(cfg: Config, state: State, role: Role, algos: Algos, hello: Option<Message>, commit: Option<Message>,
                       dhPart: Option<Message>, confirm: Option<Message>, h0: Bytes, isSecure: bool)

  function SeenBy(e: Endpoint): Seen {
    Seen(e.cfg, e.state, e.role, e.algos, e.peerHello, e.peerCommit, e.peerDhPart, e.peerConfirm, e.peerH0, e.isSecure)
  }

  /** A stored Commit was checked against the Hello it completes. */
  predicate CommitChecked(c: Crypto, s: Seen) {
    && IsHello(s.hello) && IsCommit(s.commit)
    && c.sha256(s.commit.value.body.commit.h2) == s.hello.value.body.hello.h3
    && SignedWith(c, s.commit.value.body.commit.h2, s.hello.value)
  }

  /** A stored DHPart was checked against the Commit, hvi included, by the
      responder, and against the Hello by the initiator. */
  predicate DhPartChecked(c: Crypto, s: Seen) {
    && IsDhPart(s.dhPart)
    && var h1 := s.dhPart.value.body.dhPart.h1;
       if s.role == Responder then
         && IsCommit(s.commit)
         && c.sha256(h1) == s.commit.value.body.commit.h2 && SignedWith(c, h1, s.commit.value)
         && Hvi(c, s.algos.hash, s.dhPart.value, SelfHello(c, s.cfg)) == s.commit.value.body.commit.hvi
       else
         && IsHello(s.hello)
         && c.sha256(c.sha256(h1)) == s.hello.value.body.hello.h3 && SignedWith(c, c.sha256(h1), s.hello.value)
  }

  /** The H0 a Confirm revealed was checked against what came before it. */
  predicate H0Checked(c: Crypto, s: Seen) {
    var h1 := c.sha256(s.h0);
    if !NonDh(s.algos.keyAgreement) then
      IsDhPart(s.dhPart) && h1 == s.dhPart.value.body.dhPart.h1 && SignedWith(c, s.h0, s.dhPart.value)
    else if s.role == Responder then
      IsCommit(s.commit) && c.sha256(h1) == s.commit.value.body.commit.h2 && SignedWith(c, h1, s.commit.value)
    else
      && IsHello(s.hello)
      && c.sha256(c.sha256(h1)) == s.hello.value.body.hello.h3 && SignedWith(c, c.sha256(h1), s.hello.value)
  }

  /** The states before any DHPart or Confirm of the peer is stored. */
  predicate Early(state: State) {
    state in {DiscoveryInit, WaitingForHello, WaitingForHelloAck, SendingCommit}
  }

  predicate Checked(c: Crypto, s: Seen) {
    && (s.hello.Some? ==> IsHello(s.hello))
    && (s.role == Responder <==> s.commit.Some?)
    && (s.commit.Some? ==> CommitChecked(c, s))
    && (s.dhPart.Some? ==> DhPartChecked(c, s))
    && (s.confirm.Some? ==> H0Checked(c, s))
    && (Early(s.state) ==> s.dhPart == None)
    && (Early(s.state) || s.state in {ResponderSendingDhPart1, InitiatorSendingDhPart2} ==> s.confirm == None)
    && (s.state in {DiscoveryInit, WaitingForHello} ==> s.commit == None)
    && (s.state == InitiatorSendingConfirm2 || s.state == Secure ==> s.confirm.Some?)
    && (s.isSecure ==> s.state == Secure)
  }

  // ---------------------------------------------------------------------
  // What each step of a state function changes

  lemma PreparingChanges(c: Crypto, e: Endpoint)
    ensures SeenBy(PrepareDhPart2(c, e).next) == SeenBy(e)
  {
  }

  lemma LoadingChanges(c: Crypto, e: Endpoint, peerH3: Bytes)
    ensures SeenBy(WithLoadedSecrets(c, e, peerH3)) == SeenBy(e)
  {
  }

  lemma GreetPeerChanges(c: Crypto, e: Endpoint, m: Message, lists: AlgoLists)
    requires IsHello(Some(m))
    ensures var next := GreetPeer(c, e, m, lists).next;
            SeenBy(next) == SeenBy(e).(algos := next.algos, hello := Some(m))
  {
    var known := e.(peerZid := m.body.hello.zid, peerHello := Some(m));
    LoadingChanges(c, known, m.body.hello.h3);
    PreparingChanges(c, WithLoadedSecrets(c, known, m.body.hello.h3));
  }

  lemma GreetingChanges(c: Crypto, e: Endpoint, m: Message)
    requires IsHello(Some(m))
    ensures var next := ResponseToHello(c, e, m).next;
            && SeenBy(next) == SeenBy(e).(algos := next.algos, hello := next.peerHello)
            && (next.peerHello == e.peerHello || next.peerHello == Some(m))
  {
    var lists := Received(m.body.hello.lists);
    GreetPeerChanges(c, e.(algos := Agree(e.cfg.lists, lists, e.algos).1), m, lists);
  }

  lemma CommittingChanges(c: Crypto, e: Endpoint)
    ensures SeenBy(EnterSendingCommit(c, e).next) == SeenBy(e)
  {
  }

  lemma S0Changes(c: Crypto, e: Endpoint)
    ensures ComputeS0Dh(c, e).Some? ==> SeenBy(ComputeS0Dh(c, e).value) == SeenBy(e)
    ensures ComputeS0Mult(c, e).Some? ==> SeenBy(ComputeS0Mult(c, e).value) == SeenBy(e)
  {
  }

  lemma SendingConfirm1Changes(c: Crypto, e: Endpoint)
    ensures SeenBy(SendConfirm1(c, e).next) == SeenBy(e)
  {
  }

  lemma EnteringConfirm1Changes(c: Crypto, e: Endpoint)
    ensures SeenBy(EnterResponderSendingConfirm1(c, e).next) == SeenBy(e)
  {
    S0Changes(c, e);
    SendingConfirm1Changes(c, e);
    if ComputeS0Mult(c, e).Some? {
      SendingConfirm1Changes(c, ComputeS0Mult(c, e).value);
    }
  }

  lemma EnteringResponderChanges(c: Crypto, e: Endpoint)
    ensures var next := EnterResponderState(c, e).next;
            && next.state in {ResponderSendingDhPart1, ResponderSendingConfirm1} && SeenBy(next) == SeenBy(e).(state := next.state)
  {
    EnteringConfirm1Changes(c, e.(state := ResponderSendingConfirm1));
  }

  lemma AnswerChanges(c: Crypto, e: Endpoint, commit: Commit, pv: Bytes)
    ensures SeenBy(WithKemAnswer(c, e, commit)) == SeenBy(e) == SeenBy(WithDhAnswer(c, e, pv))
  {
  }

  lemma RespondingChanges(c: Crypto, e: Endpoint, m: Message)
    requires IsCommit(Some(m))
    ensures var next := TurnIntoResponder(c, e, m).next;
            && next.state in {e.state, ResponderSendingDhPart1, ResponderSendingConfirm1}
            && SeenBy(next) == SeenBy(e).(state := next.state, role := Responder, algos := m.body.commit.algos, commit := Some(m))
  {
    var commit := m.body.commit;
    var length := DhPartValueLength(c, commit.algos.keyAgreement, true);
    var responder := e.(peerCommit := Some(m), role := Responder, algos := commit.algos);
    var swapped := responder.(ids := SwapAux(e.ids));
    if e.selfDhPart.None? {
      EnteringResponderChanges(c, responder);
    } else if IsKem(commit.algos.keyAgreement) {
      AnswerChanges(c, swapped, commit, []);
      EnteringResponderChanges(c, WithKemAnswer(c, swapped, commit));
    } else if IsDhPart(e.selfDhPart) && length <= |e.selfDhPart.value.body.dhPart.pv| {
      var pv := e.selfDhPart.value.body.dhPart.pv[..length];
      AnswerChanges(c, swapped, commit, pv);
      EnteringResponderChanges(c, WithDhAnswer(c, swapped, pv));
    }
  }

  lemma DhPart1Changes(c: Crypto, e: Endpoint, m: Message)
    requires IsDhPart(Some(m))
    ensures var next := OnDhPart1(c, e, m).next;
            SeenBy(next) == SeenBy(e) || SeenBy(next) == SeenBy(e).(state := InitiatorSendingDhPart2, dhPart := Some(m))
  {
  }

  lemma KeyedResponderChanges(c: Crypto, e: Endpoint, keyed: Option<Endpoint>)
    ensures var next := ResponderKeyed(c, e, keyed).next;
            if keyed.None? then next == e else SeenBy(next) == SeenBy(keyed.value).(state := ResponderSendingConfirm1)
  {
    if keyed.Some? {
      EnteringConfirm1Changes(c, keyed.value.(state := ResponderSendingConfirm1));
    }
  }

  lemma DhPart2Changes(c: Crypto, e: Endpoint, m: Message)
    requires IsDhPart(Some(m))
    ensures var next := OnDhPart2(c, e, m).next;
            SeenBy(next) == SeenBy(e) || SeenBy(next) == SeenBy(e).(state := ResponderSendingConfirm1, dhPart := Some(m))
  {
    var dhPart := m.body.dhPart;
    var retained := ResponderMatch(e.secrets.retained, e.cacheMismatch, e.ids.initiator, SecretIds(dhPart.rs1Id, dhPart.rs2Id));
    var matched := WithMatched(e, retained, e.ids.initiatorAux, e.ids.initiatorPbx, dhPart);
    S0Changes(c, matched.(peerDhPart := Some(m)));
    KeyedResponderChanges(c, matched, ComputeS0Dh(c, matched.(peerDhPart := Some(m))));
  }

  lemma Confirm1Changes(c: Crypto, e: Endpoint, m: Message)
    requires m.Confirm1?
    ensures var next := OnConfirm1(c, e, m).next;
            SeenBy(next) == SeenBy(e)
            || (CheckH0(c, e, next.peerH0) == 0
                && SeenBy(next) == SeenBy(e).(state := InitiatorSendingConfirm2, confirm := Some(m), h0 := next.peerH0))
  {
  }

  lemma UpdatingChanges(c: Crypto, e: Endpoint)
    ensures DeriveSrtp(c, e).Some? ==> SeenBy(DeriveSrtp(c, e).value) == SeenBy(e)
    ensures UpdateCachedSecrets(c, e).Some? ==> SeenBy(UpdateCachedSecrets(c, e).value) == SeenBy(e)
  {
  }

  lemma SecuringChanges(c: Crypto, e: Endpoint)
    ensures var derived := DeriveSrtp(c, e);
            derived.Some? && UpdateCachedSecrets(c, derived.value).Some? ==>
              SeenBy(EnterSecure(UpdateCachedSecrets(c, derived.value).value)) == SeenBy(e).(state := Secure, isSecure := true)
  {
    UpdatingChanges(c, e);
    if DeriveSrtp(c, e).Some? {
      UpdatingChanges(c, DeriveSrtp(c, e).value);
    }
  }

  lemma Confirm2Changes(c: Crypto, e: Endpoint, m: Message)
    requires m.Confirm2? && e.keys.Some? && ParseConfirm(c, e, m.confirm) == 0
    ensures var next := OnConfirm2(c, e, m).next;
            && CheckH0(c, e, next.peerH0) == 0 && next.state in {e.state, Secure}
            && SeenBy(next) == SeenBy(e).(state := next.state, confirm := Some(m), h0 := next.peerH0, isSecure := next.isSecure)
            && (next.isSecure ==> next.state == Secure || e.isSecure)
  {
    var body := OpenedConfirm(c, e, m.confirm);
    var confirmed := e.(peerH0 := body.h0, peerPvs := if e.algos.keyAgreement != KEYAGREEMENT_MULT then body.v else e.peerPvs,
                        peerConfirm := Some(m));
    UpdatingChanges(c, confirmed);
    SecuringChanges(c, confirmed);
  }

  // ---------------------------------------------------------------------
  // The checks, kept step by step

  lemma GreetingKeeps(c: Crypto, s: Seen, m: Message, algos: Algos, next: State)
    requires Checked(c, s) && s.state in {DiscoveryInit, WaitingForHello} && IsHello(Some(m))
    requires next in {s.state, WaitingForHelloAck, SendingCommit}
    ensures Checked(c, s.(algos := algos, state := next)) && Checked(c, s.(algos := algos, hello := Some(m), state := next))
  {
  }

  lemma CommitKeeps(c: Crypto, s: Seen, m: Message, next: State)
    requires Checked(c, s) && s.state in {WaitingForHelloAck, SendingCommit} && IsCommit(Some(m)) && IsHello(s.hello)
    requires c.sha256(m.body.commit.h2) == s.hello.value.body.hello.h3 && SignedWith(c, m.body.commit.h2, s.hello.value)
    requires next in {s.state, ResponderSendingDhPart1, ResponderSendingConfirm1}
    ensures Checked(c, s.(state := next, role := Responder, algos := m.body.commit.algos, commit := Some(m)))
  {
  }

  lemma CommitParsed(c: Crypto, e: Endpoint, m: Message)
    requires IsCommit(Some(m)) && ParseCommit(c, e, m.body.commit) == 0
    ensures IsHello(e.peerHello) && c.sha256(m.body.commit.h2) == e.peerHello.value.body.hello.h3
    ensures SignedWith(c, m.body.commit.h2, e.peerHello.value)
  {
  }

  lemma DhPartParsed(c: Crypto, e: Endpoint, m: Message, first: bool)
    requires IsDhPart(Some(m)) && ParseDhPart(c, e, m, first) == 0
    ensures DhPartChecked(c, SeenBy(e).(dhPart := Some(m)))
  {
  }

  lemma DhPartKeeps(c: Crypto, s: Seen, m: Message, next: State)
    requires Checked(c, s) && DhPartChecked(c, s.(dhPart := Some(m)))
    requires (s.state == SendingCommit && next == InitiatorSendingDhPart2) || (s.state == ResponderSendingDhPart1 && next == ResponderSendingConfirm1)
    ensures Checked(c, s.(state := next, dhPart := Some(m)))
  {
  }

  lemma H0Parsed(c: Crypto, e: Endpoint, h0: Bytes)
    requires CheckH0(c, e, h0) == 0
    ensures H0Checked(c, SeenBy(e).(h0 := h0))
  {
  }

  lemma ConfirmKeeps(c: Crypto, s: Seen, m: Message, h0: Bytes, next: State, isSecure: bool)
    requires Checked(c, s) && H0Checked(c, s.(h0 := h0))
    requires (s.state in {SendingCommit, InitiatorSendingDhPart2} && next == InitiatorSendingConfirm2 && isSecure == s.isSecure)
             || (s.state == ResponderSendingConfirm1 && next in {s.state, Secure} && (isSecure ==> next == Secure))
    ensures Checked(c, s.(state := next, confirm := Some(m), h0 := h0, isSecure := isSecure))
  {
  }

  lemma DiscoveryKeeps(c: Crypto, e: Endpoint, m: Message)
    requires Checked(c, SeenBy(e)) && e.state == DiscoveryInit
    ensures Checked(c, SeenBy(OnDiscoveryInit(c, e, m).next))
  {
    if IsHello(Some(m)) {
      var o := ResponseToHello(c, e, m);
      GreetingChanges(c, e, m);
      GreetingKeeps(c, SeenBy(e), m, o.next.algos, e.state);
      GreetingKeeps(c, SeenBy(e), m, o.next.algos, WaitingForHelloAck);
    } else {
      GreetingKeeps(c, SeenBy(e), SelfHello(c, e.cfg), e.algos, e.state);
    }
  }

  lemma WaitingForHelloKeeps(c: Crypto, e: Endpoint, m: Message)
    requires Checked(c, SeenBy(e)) && e.state == WaitingForHello
    ensures Checked(c, SeenBy(OnWaitingForHello(c, e, m).next))
  {
    if IsHello(Some(m)) {
      var o := ResponseToHello(c, e, m);
      GreetingChanges(c, e, m);
      GreetingKeeps(c, SeenBy(e), m, o.next.algos, e.state);
      GreetingKeeps(c, SeenBy(e), m, o.next.algos, SendingCommit);
      CommittingChanges(c, o.next.(state := SendingCommit));
    }
  }

  lemma WaitingForHelloAckKeeps(c: Crypto, e: Endpoint, m: Message)
    requires Checked(c, SeenBy(e)) && e.state == WaitingForHelloAck
    ensures Checked(c, SeenBy(OnWaitingForHelloAck(c, e, m).next))
  {
    if m.HelloAck? {
      CommittingChanges(c, e.(state := SendingCommit));
    } else if IsCommit(Some(m)) && ParseCommit(c, e, m.body.commit) == 0 {
      CommitParsed(c, e, m);
      RespondingChanges(c, e, m);
      CommitKeeps(c, SeenBy(e), m, TurnIntoResponder(c, e, m).next.state);
    }
  }

  lemma SendingCommitKeepsOnCommit(c: Crypto, e: Endpoint, m: Message)
    requires Checked(c, SeenBy(e)) && e.state == SendingCommit && IsCommit(Some(m))
    ensures Checked(c, SeenBy(OnSendingCommit(c, e, m).next))
  {
    if ParseCommit(c, e, m.body.commit) == 0 {
      CommitParsed(c, e, m);
      var responder := e.(role := Responder, selfCommit := None);
      RespondingChanges(c, responder, m);
      CommitKeeps(c, SeenBy(e), m, TurnIntoResponder(c, responder, m).next.state);
    }
  }

  lemma SendingCommitKeepsOnDhPart1(c: Crypto, e: Endpoint, m: Message)
    requires Checked(c, SeenBy(e)) && e.state == SendingCommit && m.Signed? && m.body.DhPart1Body?
    ensures Checked(c, SeenBy(OnSendingCommit(c, e, m).next))
  {
    if ParseDhPart(c, e, m, true) == 0 {
      DhPartParsed(c, e, m, true);
      DhPart1Changes(c, e, m);
      DhPartKeeps(c, SeenBy(e), m, InitiatorSendingDhPart2);
    }
  }

  lemma Confirm1Keeps(c: Crypto, e: Endpoint, m: Message)
    requires Checked(c, SeenBy(e)) && e.state in {SendingCommit, InitiatorSendingDhPart2} && m.Confirm1?
    ensures Checked(c, SeenBy(OnConfirm1(c, e, m).next))
  {
    Confirm1Changes(c, e, m);
    var next := OnConfirm1(c, e, m).next;
    if CheckH0(c, e, next.peerH0) == 0 {
      H0Parsed(c, e, next.peerH0);
      ConfirmKeeps(c, SeenBy(e), m, next.peerH0, InitiatorSendingConfirm2, e.isSecure);
    }
  }

  lemma SendingCommitKeepsOnConfirm1(c: Crypto, e: Endpoint, m: Message)
    requires Checked(c, SeenBy(e)) && e.state == SendingCommit && m.Confirm1?
    ensures Checked(c, SeenBy(OnSendingCommit(c, e, m).next))
  {
    S0Changes(c, e);
    if ComputeS0Mult(c, e).Some? {
      Confirm1Keeps(c, ComputeS0Mult(c, e).value, m);
    }
    Confirm1Keeps(c, e, m);
  }

  lemma SendingCommitKeeps(c: Crypto, e: Endpoint, m: Message)
    requires Checked(c, SeenBy(e)) && e.state == SendingCommit
    ensures Checked(c, SeenBy(OnSendingCommit(c, e, m).next))
  {
    if m.Confirm1? {
      SendingCommitKeepsOnConfirm1(c, e, m);
    } else if m.Signed? && m.body.DhPart1Body? {
      SendingCommitKeepsOnDhPart1(c, e, m);
    } else if IsCommit(Some(m)) {
      SendingCommitKeepsOnCommit(c, e, m);
    }
  }

  lemma SendingDhPart1Keeps(c: Crypto, e: Endpoint, m: Message)
    requires Checked(c, SeenBy(e)) && e.state == ResponderSendingDhPart1
    ensures Checked(c, SeenBy(OnResponderSendingDhPart1(c, e, m).next))
  {
    if m.Signed? && m.body.DhPart2Body? && ParseDhPart(c, e, m, false) == 0 {
      DhPartParsed(c, e, m, false);
      DhPart2Changes(c, e, m);
      DhPartKeeps(c, SeenBy(e), m, ResponderSendingConfirm1);
    }
  }

  lemma SendingDhPart2Keeps(c: Crypto, e: Endpoint, m: Message)
    requires Checked(c, SeenBy(e)) && e.state == InitiatorSendingDhPart2
    ensures Checked(c, SeenBy(OnInitiatorSendingDhPart2(c, e, m).next))
  {
    if m.Confirm1? {
      Confirm1Keeps(c, e, m);
    }
  }

  lemma SendingConfirm1Keeps(c: Crypto, e: Endpoint, m: Message)
    requires Checked(c, SeenBy(e)) && e.state == ResponderSendingConfirm1
    ensures Checked(c, SeenBy(OnResponderSendingConfirm1(c, e, m).next))
  {
    if m.Confirm2? && e.keys.Some? && ParseConfirm(c, e, m.confirm) == 0 {
      Confirm2Changes(c, e, m);
      var next := OnConfirm2(c, e, m).next;
      H0Parsed(c, e, next.peerH0);
      ConfirmKeeps(c, SeenBy(e), m, next.peerH0, next.state, next.isSecure);
    }
  }

  lemma SendingConfirm2Keeps(c: Crypto, e: Endpoint, m: Message)
    requires Checked(c, SeenBy(e)) && e.state == InitiatorSendingConfirm2
    ensures Checked(c, SeenBy(OnInitiatorSendingConfirm2(c, e, m).next))
  {
    UpdatingChanges(c, e);
  }

  lemma AnyMessageKeeps(c: Crypto, e: Endpoint, m: Message)
    requires Checked(c, SeenBy(e))
    ensures Checked(c, SeenBy(Receive(c, e, m).next))
  {
    match e.state
    case DiscoveryInit => DiscoveryKeeps(c, e, m);
    case WaitingForHello => WaitingForHelloKeeps(c, e, m);
    case WaitingForHelloAck => WaitingForHelloAckKeeps(c, e, m);
    case SendingCommit => SendingCommitKeeps(c, e, m);
    case ResponderSendingDhPart1 => SendingDhPart1Keeps(c, e, m);
    case InitiatorSendingDhPart2 => SendingDhPart2Keeps(c, e, m);
    case ResponderSendingConfirm1 => SendingConfirm1Keeps(c, e, m);
    case InitiatorSendingConfirm2 => SendingConfirm2Keeps(c, e, m);
    case Secure =>
  }

  /** The end after a sequence of messages, whoever made them. */
  function AfterMessages(c: Crypto, cfg: Config, messages: seq<Message>): Endpoint {
    if messages == [] then Start(cfg)
    else Receive(c, AfterMessages(c, cfg, messages[..|messages| - 1]), messages[|messages| - 1]).next
  }

  lemma {:induction false} MessagesAreChecked(c: Crypto, cfg: Config, messages: seq<Message>)
    ensures Checked(c, SeenBy(AfterMessages(c, cfg, messages)))
  {
    if messages != [] {
      var front := messages[..|messages| - 1];
      MessagesAreChecked(c, cfg, front);
      AnyMessageKeeps(c, AfterMessages(c, cfg, front), messages[|messages| - 1]);
    }
  }

  // ---------------------------------------------------------------------
  // What a secure end knows

  /** Section 9 of RFC 6189. h0 hashes to every link of the chain the peer
      announced, and every stored message of the peer that carries a MAC verifies
      under the link revealed after it. */
  predicate ChainComplete(c: Crypto, s: Seen) {
    var h1 := c.sha256(s.h0);
    var h2 := c.sha256(h1);
    && IsHello(s.hello) && c.sha256(h2) == s.hello.value.body.hello.h3 && SignedWith(c, h2, s.hello.value)
    && (s.commit.Some? ==> IsCommit(s.commit) && h2 == s.commit.value.body.commit.h2 && SignedWith(c, h1, s.commit.value))
    && (s.dhPart.Some? && !NonDh(s.algos.keyAgreement) ==>
          IsDhPart(s.dhPart) && h1 == s.dhPart.value.body.dhPart.h1 && SignedWith(c, s.h0, s.dhPart.value))
  }

  lemma CheckedAndConfirmed(c: Crypto, s: Seen)
    requires Checked(c, s) && s.confirm.Some?
    ensures ChainComplete(c, s)
    ensures s.role == Responder && !NonDh(s.algos.keyAgreement) ==>
              DhPartChecked(c, s) && Hvi(c, s.algos.hash, s.dhPart.value, SelfHello(c, s.cfg)) == s.commit.value.body.commit.hvi
  {
  }

  /** Whatever an end was sent before it became secure, the peer's whole hash
      chain is verified, and so are the MACs of the peer's Hello, Commit and
      DHPart; a responder in a Diffie-Hellman or KEM mode used the very DHPart2
      the Commit's hvi announced. */
  lemma SecureEndHasCheckedItsPeer(c: Crypto, cfg: Config, messages: seq<Message>)
    ensures var s := SeenBy(AfterMessages(c, cfg, messages));
            s.isSecure ==>
              && ChainComplete(c, s)
              && (s.role == Responder && !NonDh(s.algos.keyAgreement) ==>
                    && IsDhPart(s.dhPart) && IsCommit(s.commit)
                    && Hvi(c, s.algos.hash, s.dhPart.value, SelfHello(c, s.cfg)) == s.commit.value.body.commit.hvi)
  {
    MessagesAreChecked(c, cfg, messages);
    var s := SeenBy(AfterMessages(c, cfg, messages));
    if s.isSecure {
      CheckedAndConfirmed(c, s);
    }
  }
}
