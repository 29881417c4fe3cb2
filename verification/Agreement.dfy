/** The agreement on the five algorithms of a session: bzrtp_cryptoAlgoAgreement
    of src/cryptoUtils.cc, over the lists that bzrtp_setSupportedCryptoTypes and
    bzrtp_initBzrtpContext of src/bzrtp.c put in a context. */
module Agreement {
  import opened Octets
  import opened Negotiation

  const INVALIDCONTEXT := 0x1001
  const INVALIDMESSAGE := 0x1002
  const NOCOMMONALGOFOUND := 0x1004
  const INVALIDCIPHER := 0x1005
  const INVALIDHASH := 0x1006
  const INVALIDAUTHTAG := 0x1007
  const INVALIDSAS := 0x1008
  const CONTEXTNOTREADY := 0x0002

  /** The lists a context supports, or those announced by a Hello message. */
  datatype AlgoLists =
    AlgoLists(hash: seq<byte>, cipher: seq<byte>, authTag: seq<byte>, keyAgreement: seq<byte>, sas: seq<byte>)
  {
    function Of(family: Family): seq<byte> {
      match family
      case Hash => hash
      case Cipher => cipher
      case AuthTag => authTag
      case KeyAgreement => keyAgreement
      case Sas => sas
    }
  }

  /** The algorithms chosen for a channel. */
  datatype Algos = Algos(hash: byte, cipher: byte, authTag: byte, keyAgreement: byte, sas: byte)
  {
    function Of(family: Family): byte {
      match family
      case Hash => hash
      case Cipher => cipher
      case AuthTag => authTag
      case KeyAgreement => keyAgreement
      case Sas => sas
    }
  }

  function Common(self: seq<byte>, peer: seq<byte>): seq<byte> {
    Seven(CommonAlgos(self, Elements(peer)))
  }

  /** The key agreements that ask for the strongest hash and cipher. */
  predicate Demanding(keyAgreement: byte) {
    keyAgreement == KEYAGREEMENT_EC38 || IsPostQuantum(keyAgreement)
    || keyAgreement == KEYAGREEMENT_X448 || keyAgreement == KEYAGREEMENT_K448
  }

  function Strongest(common: seq<byte>, best: byte, second: byte, fallback: byte): byte {
    if best in common then best else if second in common then second else fallback
  }

  /** The error bzrtp_updateCryptoFunctionPointers returns for the algorithms of a
      channel, 0 if it has an implementation for each. */
  function Usable(algos: Algos): (ret: int) {
    if algos.hash !in {HASH_S256, HASH_S384, HASH_S512, UNSET_ALGO} then INVALIDHASH
    else if algos.cipher !in {CIPHER_AES1, CIPHER_AES3, UNSET_ALGO} then INVALIDCIPHER
    else if !(IsDiffieHellman(algos.keyAgreement) || IsKem(algos.keyAgreement)
              || algos.keyAgreement in {KEYAGREEMENT_MULT, KEYAGREEMENT_PRSH, UNSET_ALGO}) then INVALIDCIPHER
    else if algos.sas !in {SAS_B32, SAS_B256, UNSET_ALGO} then INVALIDSAS
    else 0
  }

  function KeyAgreementOf(self: seq<byte>, peer: seq<byte>): byte
    requires Common(self, peer) != [] && Common(peer, self) != []
  {
    var mine, theirs := Common(self, peer)[0], Common(peer, self)[0];
    if theirs < mine then theirs else mine
  }

  lemma CommonMembers(self: seq<byte>, peer: seq<byte>)
    ensures forall x :: x in Common(self, peer) ==> x in self && x in peer
    ensures |self| <= 7 ==> forall x :: x in self && x in peer ==> x in Common(self, peer)
    ensures Common(self, peer) == [] <==> forall x :: x in self ==> x !in peer
  {
    CommonAlgosMembers(self, Elements(peer));
    ElementsMembers(peer);
    var all := CommonAlgos(self, Elements(peer));
    if Common(self, peer) == [] {
      assert all == [];
    } else {
      assert all[0] in all;
    }
  }

  /** The choice of the other four once the key agreement is known: the code
      returned and the algorithms left in the channel. */
  function AgreeOthers(self: AlgoLists, peer: AlgoLists, channel: Algos): (int, Algos) {
    var ciphers, hashes := Common(self.cipher, peer.cipher), Common(self.hash, peer.hash);
    var tags, renderings := Common(self.authTag, peer.authTag), Common(self.sas, peer.sas);
    var demanding := Demanding(channel.keyAgreement);
    if ciphers == [] then (INVALIDCIPHER, channel)
    else
      var withCipher := channel.(cipher := if demanding then Strongest(ciphers, CIPHER_AES3, CIPHER_AES2, CIPHER_AES1) else ciphers[0]);
      if hashes == [] then (INVALIDHASH, withCipher)
      else
        var withHash := withCipher.(hash := if demanding then Strongest(hashes, HASH_S512, HASH_S384, HASH_S256) else hashes[0]);
        if tags == [] then (INVALIDAUTHTAG, withHash)
        else if renderings == [] then (INVALIDSAS, withHash.(authTag := tags[0]))
        else
          var algos := withHash.(authTag := tags[0], sas := renderings[0]);
          (Usable(algos), algos)
  }

  /** bzrtp_cryptoAlgoAgreement as a function of the two ends' lists and of the
      algorithms the channel had. */
  function Agree(self: AlgoLists, peer: AlgoLists, before: Algos): (int, Algos) {
    CommonSymmetric(self.keyAgreement, peer.keyAgreement);
    if self.keyAgreement == [] then (INVALIDCONTEXT, before)
    else if peer.keyAgreement == [] then (INVALIDMESSAGE, before)
    else if Common(self.keyAgreement, peer.keyAgreement) == [] then (NOCOMMONALGOFOUND, before)
    else AgreeOthers(self, peer, before.(keyAgreement := KeyAgreementOf(self.keyAgreement, peer.keyAgreement)))
  }

  /** The two loops that look for the strongest common algorithm. */
  method PickStrongest(common: array<byte>, count: nat, best: byte, second: byte, fallback: byte) returns (algo: byte)
    requires count <= common.Length
    requires UNSET_ALGO != best && UNSET_ALGO != second
    ensures algo == Strongest(common[..count], best, second, fallback)
  {
    algo := UNSET_ALGO;
    var i := 0;
    while i < count && algo == UNSET_ALGO
      invariant i <= count
      invariant algo == if best in common[..i] then best else UNSET_ALGO
    {
      if common[i] == best {
        algo := best;
      }
      i := i + 1;
    }
    assert algo == UNSET_ALGO ==> best !in common[..count];
    assert algo == best ==> best in common[..count];
    i := 0;
    while i < count && algo == UNSET_ALGO
      invariant i <= count
      invariant algo == if best in common[..count] then best else if second in common[..i] then second else UNSET_ALGO
    {
      if common[i] == second {
        algo := second;
      }
      i := i + 1;
    }
    if algo == UNSET_ALGO {
      algo := fallback;
    }
  }

  /** The part of bzrtp_cryptoAlgoAgreement that follows the choice of the key
      agreement. */
  method AlgoAgreementOthers(self: AlgoLists, peer: AlgoLists, channel: Algos) returns (ret: int, algos: Algos)
    ensures (ret, algos) == AgreeOthers(self, peer, channel)
  {
    algos := channel;
    var demanding := Demanding(algos.keyAgreement);
    var common := new byte[7];
    var count := SelectCommonAlgo(self.cipher, peer.cipher, common);
    if count == 0 {
      return INVALIDCIPHER, algos;
    }
    var picked := common[..count][0];
    if demanding {
      picked := PickStrongest(common, count, CIPHER_AES3, CIPHER_AES2, CIPHER_AES1);
    }
    algos := algos.(cipher := picked);
    count := SelectCommonAlgo(self.hash, peer.hash, common);
    if count == 0 {
      return INVALIDHASH, algos;
    }
    picked := common[..count][0];
    if demanding {
      picked := PickStrongest(common, count, HASH_S512, HASH_S384, HASH_S256);
    }
    algos := algos.(hash := picked);
    count := SelectCommonAlgo(self.authTag, peer.authTag, common);
    if count == 0 {
      return INVALIDAUTHTAG, algos;
    }
    algos := algos.(authTag := common[..count][0]);
    count := SelectCommonAlgo(self.sas, peer.sas, common);
    if count == 0 {
      return INVALIDSAS, algos;
    }
    algos := algos.(sas := common[..count][0]);
    ret := Usable(algos);
  }

  /** bzrtp_cryptoAlgoAgreement. */
  method CryptoAlgoAgreement(self: AlgoLists, peer: AlgoLists, before: Algos) returns (ret: int, algos: Algos)
    ensures (ret, algos) == Agree(self, peer, before)
  {
    algos := before;
    if |self.keyAgreement| == 0 {
      return INVALIDCONTEXT, algos;
    }
    if |peer.keyAgreement| == 0 {
      return INVALIDMESSAGE, algos;
    }
    CommonSymmetric(self.keyAgreement, peer.keyAgreement);
    var mine, theirs := new byte[7], new byte[7];
    var mineCount := SelectCommonAlgo(self.keyAgreement, peer.keyAgreement, mine);
    if mineCount == 0 {
      return NOCOMMONALGOFOUND, algos;
    }
    var theirsCount := SelectCommonAlgo(peer.keyAgreement, self.keyAgreement, theirs);
    var mineFirst, theirsFirst := mine[..mineCount][0], theirs[..theirsCount][0];
    algos := algos.(keyAgreement := if theirsFirst < mineFirst then theirsFirst else mineFirst);
    ret, algos := AlgoAgreementOthers(self, peer, algos);
  }

  // ---------------------------------------------------------------------
  // Configured contexts

  /** A list as bzrtp_setSupportedCryptoTypes leaves it. */
  ghost predicate ConfiguredList(family: Family, list: seq<byte>) {
    && |list| <= 7 && DuplicateFree(list)
    && (forall x :: x in Mandatory(family) ==> x in list)
    && (forall x :: x in list ==> Implemented(family, x))
  }

  ghost predicate Configured(lists: AlgoLists) {
    && ConfiguredList(Hash, lists.hash) && ConfiguredList(Cipher, lists.cipher)
    && ConfiguredList(AuthTag, lists.authTag) && ConfiguredList(KeyAgreement, lists.keyAgreement)
    && ConfiguredList(Sas, lists.sas)
  }

  /** Whatever list the application asks for, the context ends up with a
      configured one, and only ever with types it asked for or mandatory ones. */
  lemma SupportedTypesAreConfigured(family: Family, supported: seq<byte>, implemented: seq<byte>)
    requires forall x :: x in implemented ==> Implemented(family, x)
    ensures var list := WithMandatory(Common(supported, implemented), Mandatory(family));
            && ConfiguredList(family, list)
            && forall x :: x in list ==> x in Mandatory(family) || (x in supported && x in implemented)
  {
    MandatoryDuplicateFree(family);
    CommonMembers(supported, implemented);
    WithMandatoryComplete(Common(supported, implemented), Mandatory(family));
  }

  /** What the parser of Hello messages does to a list: the five calls of
      bzrtp_addMandatoryCryptoTypesIfNeeded. */
  function Received(lists: AlgoLists): AlgoLists {
    AlgoLists(WithMandatory(lists.hash, Mandatory(Hash)), WithMandatory(lists.cipher, Mandatory(Cipher)),
              WithMandatory(lists.authTag, Mandatory(AuthTag)), WithMandatory(lists.keyAgreement, Mandatory(KeyAgreement)),
              WithMandatory(lists.sas, Mandatory(Sas)))
  }

  /** A configured end's lists reach the other end unchanged. */
  lemma ReceivedAsSent(lists: AlgoLists)
    requires Configured(lists)
    ensures Received(lists) == lists
  {
    forall family: Family
      ensures WithMandatory(lists.Of(family), Mandatory(family)) == lists.Of(family)
    {
      assert ConfiguredList(family, lists.Of(family));
      MandatoryDuplicateFree(family);
      WithMandatoryIdentity(lists.Of(family), Mandatory(family));
    }
    assert WithMandatory(lists.Of(Hash), Mandatory(Hash)) == lists.Of(Hash);
    assert WithMandatory(lists.Of(Cipher), Mandatory(Cipher)) == lists.Of(Cipher);
    assert WithMandatory(lists.Of(AuthTag), Mandatory(AuthTag)) == lists.Of(AuthTag);
    assert WithMandatory(lists.Of(KeyAgreement), Mandatory(KeyAgreement)) == lists.Of(KeyAgreement);
    assert WithMandatory(lists.Of(Sas), Mandatory(Sas)) == lists.Of(Sas);
  }

  /** Any parsed Hello, whatever the peer sent, offers the multistream mode, so
      the refusal of a peer without it is unreachable. */
  lemma EveryHelloOffersMult(lists: AlgoLists)
    ensures KEYAGREEMENT_MULT in Received(lists).keyAgreement
  {
    MandatoryDuplicateFree(KeyAgreement);
    WithMandatoryComplete(lists.keyAgreement, Mandatory(KeyAgreement));
    assert KEYAGREEMENT_MULT == Mandatory(KeyAgreement)[1];
  }

  /** bzrtp_setSupportedCryptoTypes for one family: list and count are the
      context's array and counter for it, implemented what this build has. */
  method SetSupportedCryptoTypes(family: Family, supported: seq<byte>, implemented: seq<byte>, isInitialised: bool,
                                 list: array<byte>, count: nat)
    returns (ret: int, newCount: nat)
    requires list.Length == 7 && count <= 7
    modifies list
    ensures newCount <= 7
    ensures isInitialised ==> ret == CONTEXTNOTREADY && list[..newCount] == old(list[..count])
    ensures !isInitialised ==> ret == 0 && list[..newCount] == WithMandatory(Common(supported, implemented), Mandatory(family))
  {
    if isInitialised {
      return CONTEXTNOTREADY, count;
    }
    newCount := SelectCommonAlgo(supported, implemented, list);
    newCount := AddMandatoryCryptoTypesIfNeeded(family, list, newCount);
    ret := 0;
  }

  /** What bzrtp_initBzrtpContext does to the cipher and to the hash list of a
      context with a post-quantum key agreement. */
  function WithType(list: seq<byte>, x: byte): seq<byte> {
    if |list| < 7 && x !in list then list + [x] else list
  }

  method AddType(list: array<byte>, count: nat, x: byte) returns (newCount: nat)
    requires list.Length == 7 && count <= 7
    modifies list
    ensures newCount <= 7 && list[..newCount] == WithType(old(list[..count]), x)
  {
    newCount := count;
    if count < 7 {
      var j := 0;
      while list[j] != x && j < count
        invariant j <= count && x !in list[..j]
        invariant list[..count] == old(list[..count])
        decreases count - j
      {
        j := j + 1;
      }
      if j == count {
        list[count] := x;
        newCount := count + 1;
      }
    }
  }

  function Initialised(lists: AlgoLists): AlgoLists {
    if exists x :: x in lists.keyAgreement && IsPostQuantum(x) then
      lists.(cipher := WithType(lists.cipher, CIPHER_AES3), hash := WithType(lists.hash, HASH_S512))
    else lists
  }

  /** Initialising a configured context keeps it configured, and gives it AES-256
      and SHA-512 if it has a post-quantum key agreement: the implemented types of
      these two families cannot fill the seven slots. */
  lemma InitialisedStaysConfigured(lists: AlgoLists)
    requires Configured(lists)
    ensures Configured(Initialised(lists))
    ensures (exists x :: x in lists.keyAgreement && IsPostQuantum(x)) ==>
              CIPHER_AES3 in Initialised(lists).cipher && HASH_S512 in Initialised(lists).hash
  {
    assert forall x :: x in lists.cipher ==> x in [CIPHER_AES1, CIPHER_AES3];
    Pigeonhole(lists.cipher, [CIPHER_AES1, CIPHER_AES3]);
    assert forall x :: x in lists.hash ==> x in [HASH_S256, HASH_S384, HASH_S512];
    Pigeonhole(lists.hash, [HASH_S256, HASH_S384, HASH_S512]);
  }

  // ---------------------------------------------------------------------
  // The agreement seen from both ends

  lemma CommonSymmetric(self: seq<byte>, peer: seq<byte>)
    ensures Common(self, peer) == [] <==> Common(peer, self) == []
  {
    CommonMembers(self, peer);
    CommonMembers(peer, self);
  }

  /** The first common algorithm is the one self prefers among those of peer. */
  lemma FirstChoice(self: seq<byte>, peer: seq<byte>, x: byte)
    requires x in self && x in peer
    ensures Common(self, peer) != []
    ensures var first := Common(self, peer)[0];
            first in self && first in peer && FirstIndex(self, first) <= FirstIndex(self, x)
  {
    CommonMembers(self, peer);
    CommonAlgosMembers(self, Elements(peer));
    ElementsMembers(peer);
    var all := CommonAlgos(self, Elements(peer));
    var k :| 0 <= k < |all| && all[k] == x;
    assert Common(self, peer)[0] == all[0];
    assert all[0] in all;
    if k > 0 {
      CommonAlgosOrdered(self, Elements(peer), 0, k);
    }
  }

  lemma AgreedKeyAgreement(x: AlgoLists, y: AlgoLists, before: Algos)
    requires Common(x.keyAgreement, y.keyAgreement) != [] && Common(y.keyAgreement, x.keyAgreement) != []
    ensures Agree(x, y, before).1.keyAgreement == KeyAgreementOf(x.keyAgreement, y.keyAgreement)
  {
    CommonMembers(x.keyAgreement, y.keyAgreement);
    assert Common(x.keyAgreement, y.keyAgreement)[0] in Common(x.keyAgreement, y.keyAgreement);
  }

  /** Both ends choose the same key agreement: it is one both support, it is the
      first choice of one of them and no slower than the other's first choice
      (the octet values are in the order from fast to slow). */
  lemma KeyAgreementSymmetric(x: AlgoLists, y: AlgoLists, beforeX: Algos, beforeY: Algos)
    requires exists shared :: shared in x.keyAgreement && shared in y.keyAgreement
    ensures var ka := Agree(x, y, beforeX).1.keyAgreement;
            && ka == Agree(y, x, beforeY).1.keyAgreement
            && ka in x.keyAgreement && ka in y.keyAgreement
            && Common(x.keyAgreement, y.keyAgreement) != [] && Common(y.keyAgreement, x.keyAgreement) != []
            && var firstX, firstY := Common(x.keyAgreement, y.keyAgreement)[0], Common(y.keyAgreement, x.keyAgreement)[0];
               ka in {firstX, firstY} && ka <= firstX && ka <= firstY
  {
    var shared :| shared in x.keyAgreement && shared in y.keyAgreement;
    FirstChoice(x.keyAgreement, y.keyAgreement, shared);
    FirstChoice(y.keyAgreement, x.keyAgreement, shared);
    AgreedKeyAgreement(x, y, beforeX);
    AgreedKeyAgreement(y, x, beforeY);
  }

  lemma StrongestShared(self: seq<byte>, peer: seq<byte>, best: byte, second: byte, fallback: byte)
    requires |self| <= 7 && fallback in self && fallback in peer
    ensures var r := Strongest(Common(self, peer), best, second, fallback);
            r in self && r in peer && (best in self && best in peer ==> r == best)
  {
    CommonMembers(self, peer);
  }

  lemma ConfiguredShare(family: Family, x: AlgoLists, y: AlgoLists)
    requires Configured(x) && Configured(y)
    ensures Mandatory(family)[0] in x.Of(family) && Mandatory(family)[0] in y.Of(family)
  {
    assert Mandatory(family)[0] in Mandatory(family);
    assert ConfiguredList(family, x.Of(family)) && ConfiguredList(family, y.Of(family));
  }

  // A cipher or hash, chosen either way, is one both ends have.
  lemma ChoiceIsShared(family: Family, x: AlgoLists, y: AlgoLists, best: byte, second: byte, demanding: bool)
    requires Configured(x) && Configured(y)
    ensures var common := Common(x.Of(family), y.Of(family));
            && common != []
            && var r := if demanding then Strongest(common, best, second, Mandatory(family)[0]) else common[0];
               r in x.Of(family) && r in y.Of(family) && Implemented(family, r)
  {
    ConfiguredShare(family, x, y);
    assert ConfiguredList(family, x.Of(family));
    FirstChoice(x.Of(family), y.Of(family), Mandatory(family)[0]);
    StrongestShared(x.Of(family), y.Of(family), best, second, Mandatory(family)[0]);
  }

  lemma ConfiguredOthersAgree(x: AlgoLists, y: AlgoLists, channel: Algos)
    requires Configured(x) && Configured(y)
    requires Implemented(KeyAgreement, channel.keyAgreement)
    ensures var (ret, algos) := AgreeOthers(x, y, channel);
            && ret == 0 && algos.keyAgreement == channel.keyAgreement
            && algos.hash in x.hash && algos.hash in y.hash && algos.cipher in x.cipher && algos.cipher in y.cipher
            && algos.authTag in x.authTag && algos.authTag in y.authTag && algos.sas in x.sas && algos.sas in y.sas
  {
    ChoiceIsShared(Cipher, x, y, CIPHER_AES3, CIPHER_AES2, Demanding(channel.keyAgreement));
    ChoiceIsShared(Hash, x, y, HASH_S512, HASH_S384, Demanding(channel.keyAgreement));
    ChoiceIsShared(AuthTag, x, y, 0, 0, false);
    ChoiceIsShared(Sas, x, y, 0, 0, false);
  }

  /** Two configured ends always agree, on five algorithms both support. */
  lemma ConfiguredAgree(x: AlgoLists, y: AlgoLists, before: Algos)
    requires Configured(x) && Configured(y)
    ensures var (ret, algos) := Agree(x, y, before);
            && ret == 0
            && (forall family: Family :: algos.Of(family) in x.Of(family) && algos.Of(family) in y.Of(family))
            && Implemented(KeyAgreement, algos.keyAgreement)
  {
    ConfiguredShare(KeyAgreement, x, y);
    KeyAgreementSymmetric(x, y, before, before);
    var ka := KeyAgreementOf(x.keyAgreement, y.keyAgreement);
    assert Implemented(KeyAgreement, ka);
    ConfiguredOthersAgree(x, y, before.(keyAgreement := ka));
  }

  /** Key agreements that ask for it get AES-256 and SHA-512 from both ends when
      both have them, even if each end prefers something else. */
  lemma DemandingGetsTheStrongest(x: AlgoLists, y: AlgoLists, before: Algos)
    requires Configured(x) && Configured(y)
    requires CIPHER_AES3 in x.cipher && CIPHER_AES3 in y.cipher && HASH_S512 in x.hash && HASH_S512 in y.hash
    ensures var algos := Agree(x, y, before).1;
            Demanding(algos.keyAgreement) ==> algos.cipher == CIPHER_AES3 && algos.hash == HASH_S512
  {
    ConfiguredAgree(x, y, before);
    StrongestShared(x.cipher, y.cipher, CIPHER_AES3, CIPHER_AES2, CIPHER_AES1);
    ConfiguredShare(Cipher, x, y);
    ConfiguredShare(Hash, x, y);
    StrongestShared(x.hash, y.hash, HASH_S512, HASH_S384, HASH_S256);
  }

  /** Two initialised contexts that agree on a post-quantum key agreement agree
      on AES-256 and SHA-512. */
  lemma PostQuantumGetsTheStrongest(x: AlgoLists, y: AlgoLists, before: Algos)
    requires Configured(x) && Configured(y)
    ensures var algos := Agree(Initialised(x), Initialised(y), before).1;
            IsPostQuantum(algos.keyAgreement) ==> algos.cipher == CIPHER_AES3 && algos.hash == HASH_S512
  {
    InitialisedStaysConfigured(x);
    InitialisedStaysConfigured(y);
    ConfiguredShare(KeyAgreement, x, y);
    KeyAgreementSymmetric(Initialised(x), Initialised(y), before, before);
    if IsPostQuantum(Agree(Initialised(x), Initialised(y), before).1.keyAgreement) {
      DemandingGetsTheStrongest(Initialised(x), Initialised(y), before);
    }
  }

  predicate SameFirstHash(x: AlgoLists, y: AlgoLists) {
    Common(x.hash, y.hash) != [] && Common(y.hash, x.hash) != [] && Common(x.hash, y.hash)[0] == Common(y.hash, x.hash)[0]
  }

  predicate AgreeOnDemanding(x: AlgoLists, y: AlgoLists) {
    && Common(x.keyAgreement, y.keyAgreement) != [] && Common(y.keyAgreement, x.keyAgreement) != []
    && Demanding(KeyAgreementOf(x.keyAgreement, y.keyAgreement))
  }

  lemma StrongestSymmetric(self: seq<byte>, peer: seq<byte>, best: byte, second: byte, fallback: byte)
    requires |self| <= 7 && |peer| <= 7
    ensures Strongest(Common(self, peer), best, second, fallback) == Strongest(Common(peer, self), best, second, fallback)
  {
    CommonMembers(self, peer);
    CommonMembers(peer, self);
  }

  lemma SelectedHash(x: AlgoLists, y: AlgoLists, before: Algos)
    requires Configured(x) && Configured(y)
    ensures Common(x.hash, y.hash) != []
    ensures var algos := Agree(x, y, before).1;
            algos.hash == if Demanding(algos.keyAgreement) then Strongest(Common(x.hash, y.hash), HASH_S512, HASH_S384, HASH_S256)
                          else Common(x.hash, y.hash)[0]
  {
    ConfiguredShare(KeyAgreement, x, y);
    KeyAgreementSymmetric(x, y, before, before);
    ChoiceIsShared(Hash, x, y, HASH_S512, HASH_S384, true);
    ChoiceIsShared(Cipher, x, y, CIPHER_AES3, CIPHER_AES2, true);
    ChoiceIsShared(AuthTag, x, y, UNSET_ALGO, UNSET_ALGO, false);
    ChoiceIsShared(Sas, x, y, UNSET_ALGO, UNSET_ALGO, false);
  }

  /** Unlike the key agreement, the hash each end selects is the first of its own
      list: the two ends select one hash exactly when these are the same, or the key
      agreement asks for the strongest. */
  lemma HashesAgreeIff(x: AlgoLists, y: AlgoLists, beforeX: Algos, beforeY: Algos)
    requires Configured(x) && Configured(y)
    ensures Agree(x, y, beforeX).1.hash == Agree(y, x, beforeY).1.hash
            <==> SameFirstHash(x, y) || AgreeOnDemanding(x, y)
  {
    ConfiguredShare(KeyAgreement, x, y);
    KeyAgreementSymmetric(x, y, beforeX, beforeY);
    AgreedKeyAgreement(x, y, beforeX);
    SelectedHash(x, y, beforeX);
    SelectedHash(y, x, beforeY);
    StrongestSymmetric(x.hash, y.hash, HASH_S512, HASH_S384, HASH_S256);
  }

  /** A Hello exchange agrees on the multistream type exactly when both ends
      rank it before every other type they share: any other implemented type has
      a smaller value. */
  lemma MultAgreedOnlyIfBothPreferIt(x: AlgoLists, y: AlgoLists, before: Algos)
    requires Configured(x) && Configured(y)
    ensures Agree(x, y, before).1.keyAgreement == KEYAGREEMENT_MULT <==>
            && Common(x.keyAgreement, y.keyAgreement) != [] && Common(x.keyAgreement, y.keyAgreement)[0] == KEYAGREEMENT_MULT
            && Common(y.keyAgreement, x.keyAgreement) != [] && Common(y.keyAgreement, x.keyAgreement)[0] == KEYAGREEMENT_MULT
  {
    ConfiguredShare(KeyAgreement, x, y);
    FirstChoice(x.keyAgreement, y.keyAgreement, KEYAGREEMENT_DH3K);
    FirstChoice(y.keyAgreement, x.keyAgreement, KEYAGREEMENT_DH3K);
    AgreedKeyAgreement(x, y, before);
    assert Implemented(KeyAgreement, Common(x.keyAgreement, y.keyAgreement)[0]);
    assert Implemented(KeyAgreement, Common(y.keyAgreement, x.keyAgreement)[0]);
  }
}
