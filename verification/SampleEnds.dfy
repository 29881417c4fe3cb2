/** Two ends that meet every hypothesis of the theorems on runs, with the simplest
    primitives there can be. */
module SampleEnds {
  import opened Octets
  import opened Negotiation
  import opened Agreement
  import opened RetainedSecrets
  import opened Messages
  import opened Protocol
  import opened Exchange
  import opened SafeRuns
  import opened Codec
  import opened OnTheWire
  import GoClear
  import TimedGoClear
  import Timer

  function Octet(n: nat, value: byte): (s: Bytes)
    ensures |s| == n && forall k :: 0 <= k < n ==> s[k] == value
  {
    seq(n, k => value)
  }

  /** What a Confirm that cannot be read is taken for. */
  const NO_BODY := ConfirmBody([], 0, false, false, false, false, 0, [], [])

  function ReadIfReadable(plain: Bytes): ConfirmBody {
    if Readable(plain) then ReadPlain(plain) else NO_BODY
  }

  /** Digests of zeros, a cipher that changes nothing, empty shared values, the
      layouts of the library. */
  const SAMPLE_CRYPTO := Crypto(
    s => Octet(32, 0), (k, s) => Octet(8, 0), (h, s, n: nat) => Octet(n, 0), (h, k, s) => Octet(8, 0),
    (h, k, l, s, n: nat) => Octet(n, 0), (a, k, iv, p) => p, (a, k, iv, p) => p,
    (a, p) => Octet(DhPublicLength(a), 0), (a, p, q) => [],
    (a, h, s) => [], (a, h, p, r) => Octet(4, 0), (a, h, p, r) => [], (a, h, s, t) => [],
    a => 0, a => 4, Unsigned, Plain, ReadIfReadable)

  /** The lists of an end that prefers 3072-bit Diffie-Hellman. */
  const SAMPLE_LISTS := AlgoLists([HASH_S256], [CIPHER_AES1], [AUTHTAG_HS32, AUTHTAG_HS80],
                                  [KEYAGREEMENT_DH3K, KEYAGREEMENT_MULT], [SAS_B32])

  /** An end without secrets, whose every random octet is the same. */
  function SampleEnd(value: byte): Config {
    var id := Octet(8, value);
    var ids := SecretIds(id, id);
    Config(Octet(12, value), Octet(32, value), true, SAMPLE_LISTS, Retained(None, None), None, None, false, None, None,
           Randoms(Octet(32, value), Octet(32, value), Octet(32, value), Octet(16, value), Octet(16, value), Octet(16, value),
                   ids, ids, id, id, id, id))
  }

  lemma SamplePrimitivesWork()
    ensures PrimitivesWork(SAMPLE_CRYPTO)
  {
    SampleIsLaidOut();
    LayoutOpensConfirms(SAMPLE_CRYPTO);
  }

  lemma SampleIsLaidOut()
    ensures LaidOut(SAMPLE_CRYPTO)
  {
  }

  lemma SampleListsAreConfigured()
    ensures Configured(SAMPLE_LISTS)
  {
  }

  lemma SampleIsConfigured(value: byte)
    ensures ConfiguredEnd(SampleEnd(value)) && SizedEnd(SampleEnd(value))
  {
    SampleListsAreConfigured();
  }

  // Of two Hellos of such ends, Diffie-Hellman is agreed.
  lemma SampleAgrees()
    ensures Agree(SAMPLE_LISTS, Received(SAMPLE_LISTS), UNSET_ALGOS).1.keyAgreement != KEYAGREEMENT_MULT
  {
    SampleListsAreConfigured();
    ReceivedAsSent(SAMPLE_LISTS);
    MultAgreedOnlyIfBothPreferIt(SAMPLE_LISTS, SAMPLE_LISTS, UNSET_ALGOS);
    FirstChoice(SAMPLE_LISTS.keyAgreement, SAMPLE_LISTS.keyAgreement, KEYAGREEMENT_DH3K);
  }

  lemma SampleIdsTellApart(a: byte, b: byte)
    requires a != b
    ensures var i, r := PartyOf(SampleEnd(a), SampleEnd(b)), PartyOf(SampleEnd(b), SampleEnd(a));
            IdsTellApart(i, r, IdsOf(SAMPLE_CRYPTO, i, r), IdsOf(SAMPLE_CRYPTO, r, i))
  {
    assert Octet(8, a)[0] != Octet(8, b)[0];
  }

  /** There are honest ends whose messages go over the wire: the theorems on runs are
      about something. */
  lemma HonestWireEndsExist()
    ensures HonestEnds(SAMPLE_CRYPTO, SampleEnd(0), SampleEnd(1)) && WireEnds(SAMPLE_CRYPTO, SampleEnd(0), SampleEnd(1))
  {
    SamplePrimitivesWork();
    SampleIsConfigured(0);
    SampleIsConfigured(1);
    SampleAgrees();
    SampleIdsTellApart(0, 1);
    SampleIdsTellApart(1, 0);
    SampleIsLaidOut();
  }

  // ---------------------------------------------------------------------
  // Ends that can go to clear

  function SampleChannel(isInitiator: bool): GoClear.Channel {
    GoClear.Channel(GoClear.Secure, true, false, isInitiator, Some(GoClear.MacKeys(Octet(32, 0), Octet(32, 1))), HASH_S256, false)
  }

  function SampleContext(isInitiator: bool): GoClear.Context {
    GoClear.Context([SampleChannel(isInitiator)], Octet(32, 2), true, true)
  }

  const SAMPLE_LINE := TimedGoClear.Line([0], [Timer.Timer(false, 0, 0, Timer.NON_HELLO_BASE_RETRANSMISSION_STEP)], 0)

  /** There are secure ends that both accept to go clear. */
  lemma SecureEndsExist()
    ensures TimedGoClear.Accepting(TimedGoClear.Timed(GoClear.Global(SampleContext(true), SampleContext(false), [], []),
                                                      SAMPLE_LINE, SAMPLE_LINE), 0, 0)
  {
  }
}
