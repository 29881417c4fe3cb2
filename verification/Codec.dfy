/** Messages and packets as octets: the layouts written by bzrtp_packetBuild and
    bzrtp_packetSetSequenceNumber and read by bzrtp_packetCheck and
    bzrtp_packetParser, in src/packetParser.c. */
module Codec {
  import opened Octets
  import opened Negotiation
  import opened Agreement
  import opened Messages
  import opened Protocol
  import opened Layout
  import Crc32

  const PARSER_ERROR_INVALIDCRC := 0xa001
  const PARSER_ERROR_INVALIDPACKET := 0xa002
  const PARSER_ERROR_OUTOFORDER := 0xa004

  const MESSAGE_HEADER_LENGTH := 12
  const MAC_LENGTH := 8
  const PACKET_HEADER_LENGTH := 12
  const PACKET_OVERHEAD := 16
  const MIN_PACKET_LENGTH := 28
  const MAX_PACKET_LENGTH := 3072

  const HELLOMESSAGE_FIXED_LENGTH := 88
  const COMMITMESSAGE_FIXED_LENGTH := 84
  const DHPARTMESSAGE_FIXED_LENGTH := 84

  datatype Kind = HelloKind | HelloAckKind | CommitKind | DhPart1Kind | DhPart2Kind | Confirm1Kind | Confirm2Kind | Conf2AckKind

  function KindOf(m: Message): Kind {
    match m
    case Signed(HelloBody(_), _) => HelloKind
    case Signed(CommitBody(_), _) => CommitKind
    case Signed(DhPart1Body(_), _) => DhPart1Kind
    case Signed(DhPart2Body(_), _) => DhPart2Kind
    case HelloAck => HelloAckKind
    case Confirm1(_) => Confirm1Kind
    case Confirm2(_) => Confirm2Kind
    case Conf2Ack => Conf2AckKind
  }

  /** The eight characters of a message type, as two words. */
  function TypeWords(kind: Kind): (nat, nat) {
    match kind
    case HelloKind => (0x48656c6c, 0x6f202020)
    case HelloAckKind => (0x48656c6c, 0x6f41434b)
    case CommitKind => (0x436f6d6d, 0x69742020)
    case DhPart1Kind => (0x44485061, 0x72743120)
    case DhPart2Kind => (0x44485061, 0x72743220)
    case Confirm1Kind => (0x436f6e66, 0x69726d31)
    case Confirm2Kind => (0x436f6e66, 0x69726d32)
    case Conf2AckKind => (0x436f6e66, 0x3241434b)
  }

  /** messageTypeStringtoInt, on the types the exchange uses. */
  function ReadKind(first: nat, second: nat): Option<Kind> {
    if first == 0x48656c6c then
      if second == 0x6f202020 then Some(HelloKind) else if second == 0x6f41434b then Some(HelloAckKind) else None
    else if first == 0x436f6d6d && second == 0x69742020 then Some(CommitKind)
    else if first == 0x44485061 then
      if second == 0x72743120 then Some(DhPart1Kind) else if second == 0x72743220 then Some(DhPart2Kind) else None
    else if first == 0x436f6e66 then
      if second == 0x69726d31 then Some(Confirm1Kind)
      else if second == 0x69726d32 then Some(Confirm2Kind)
      else if second == 0x3241434b then Some(Conf2AckKind)
      else None
    else None
  }

  // ---------------------------------------------------------------------
  // Layouts

  function HelloFlags(h: Hello): byte {
    (if h.s then 0x40 else 0) + (if h.m then 0x20 else 0) + (if h.p then 0x10 else 0)
  }

  /** The counts of the five lists, on four bits each. */
  function HelloFields(h: Hello): seq<Bytes> {
    [h.version, h.clientIdentifier, h.h3, h.zid, [HelloFlags(h)], [(|h.lists.hash| % 16) as byte],
     [(|h.lists.cipher| % 16 * 16 + |h.lists.authTag| % 16) as byte], [(|h.lists.keyAgreement| % 16 * 16 + |h.lists.sas| % 16) as byte]]
  }

  function ListFields(lists: AlgoLists): seq<Bytes> {
    [ListOctets(lists.hash), ListOctets(lists.cipher), ListOctets(lists.authTag), ListOctets(lists.keyAgreement), ListOctets(lists.sas)]
  }

  function CommitFields(commit: Commit): seq<Bytes> {
    var a := commit.algos;
    [commit.h2, commit.zid, NameOctets(a.hash), NameOctets(a.cipher), NameOctets(a.authTag), NameOctets(a.keyAgreement), NameOctets(a.sas)]
  }

  /** The nonce, or the hvi and for a KEM the public key. */
  function CommitValue(commit: Commit): Bytes {
    if NonDh(commit.algos.keyAgreement) then commit.nonce else commit.hvi + commit.pv
  }

  function DhPartFields(dhPart: DhPart): seq<Bytes> {
    [dhPart.h1, dhPart.rs1Id, dhPart.rs2Id, dhPart.auxId, dhPart.pbxId, dhPart.pv]
  }

  function Content(body: Body): Bytes {
    match body
    case HelloBody(h) => Joined(HelloFields(h)) + Joined(ListFields(h.lists))
    case CommitBody(commit) => Joined(CommitFields(commit)) + CommitValue(commit)
    case DhPart1Body(dhPart) => Joined(DhPartFields(dhPart))
    case DhPart2Body(dhPart) => Joined(DhPartFields(dhPart))
  }

  /** zrtpMessageSetHeader: the length is in words. */
  function MessageHeader(kind: Kind, length: nat): (octets: Bytes)
    ensures |octets| == MESSAGE_HEADER_LENGTH
  {
    [0x50, 0x5a] + ShortOctets(length / 4) + Word32(TypeWords(kind).0) + Word32(TypeWords(kind).1)
  }

  function BodyKind(body: Body): Kind {
    KindOf(Signed(body, []))
  }

  /** A message without its MAC: what the MAC is computed over. */
  function Unsigned(body: Body): Bytes {
    MessageHeader(BodyKind(body), MESSAGE_HEADER_LENGTH + |Content(body)| + MAC_LENGTH) + Content(body)
  }

  function ConfirmContent(confirm: Confirm): Bytes {
    confirm.mac + confirm.iv + confirm.cipherText
  }

  /** What follows the message header. */
  function MessageContent(m: Message): Bytes {
    match m
    case Signed(body, mac) => Content(body) + mac
    case HelloAck => []
    case Confirm1(confirm) => ConfirmContent(confirm)
    case Confirm2(confirm) => ConfirmContent(confirm)
    case Conf2Ack => []
  }

  function MessageOctets(m: Message): Bytes {
    MessageHeader(KindOf(m), MESSAGE_HEADER_LENGTH + |MessageContent(m)|) + MessageContent(m)
  }

  // ---------------------------------------------------------------------
  // Parsing

  datatype Parsed = Parsed(message: Message) | Malformed(code: int)

  const HELLO_WIDTHS: seq<nat> := [4, 16, 32, 12, 1, 1, 1, 1]
  const COMMIT_WIDTHS: seq<nat> := [32, 12, 4, 4, 4, 4, 4]

  function HighNibble(octet: byte): nat {
    octet as nat / 16
  }

  function LowNibble(octet: byte): nat {
    octet as nat % 16
  }

  function Count(nibble: nat): nat {
    if nibble > 7 then 7 else nibble
  }

  /** How many algorithms a Hello announces of each family. */
  datatype Counts = Counts(hc: nat, cc: nat, ac: nat, kc: nat, sc: nat)
  {
    function Sum(): nat {
      hc + cc + ac + kc + sc
    }
  }

  /** The lists of a Hello, each read through the advancing pointer. */
  function ReadLists(octets: Bytes, n: Counts): AlgoLists
    requires 4 * n.Sum() <= |octets|
  {
    var toCipher := octets[4 * n.hc..];
    var toAuthTag := toCipher[4 * n.cc..];
    var toKeyAgreement := toAuthTag[4 * n.ac..];
    var toSas := toKeyAgreement[4 * n.kc..];
    AlgoLists(ReadList(Hash, octets, n.hc), ReadList(Cipher, toCipher, n.cc), ReadList(AuthTag, toAuthTag, n.ac),
              ReadList(KeyAgreement, toKeyAgreement, n.kc), ReadList(Sas, toSas, n.sc))
  }

  predicate AreHelloFields(f: seq<Bytes>) {
    |f| == 8 && |f[4]| == 1 && |f[5]| == 1 && |f[6]| == 1 && |f[7]| == 1
  }

  function CountsIn(f: seq<Bytes>): Counts
    requires AreHelloFields(f)
  {
    Counts(Count(LowNibble(f[5][0])), Count(HighNibble(f[6][0])), Count(LowNibble(f[6][0])),
           Count(HighNibble(f[7][0])), Count(LowNibble(f[7][0])))
  }

  function HelloFrom(f: seq<Bytes>, lists: AlgoLists): Hello
    requires AreHelloFields(f)
  {
    var flags := f[4][0] as int;
    Hello(f[0], f[1], f[2], f[3], flags / 64 % 2 == 1, flags / 32 % 2 == 1, flags / 16 % 2 == 1, lists)
  }

  function ReadHello(content: Bytes): Parsed {
    if |content| < HELLOMESSAGE_FIXED_LENGTH - MESSAGE_HEADER_LENGTH then Malformed(PARSER_ERROR_INVALIDMESSAGE)
    else
      var f := Split(content, HELLO_WIDTHS);
      var counts := CountsIn(f);
      if MESSAGE_HEADER_LENGTH + |content| != HELLOMESSAGE_FIXED_LENGTH + 4 * counts.Sum() then
        Malformed(PARSER_ERROR_INVALIDMESSAGE)
      else
        Parsed(Signed(HelloBody(HelloFrom(f, Received(ReadLists(content[68..], counts)))), content[|content| - MAC_LENGTH..]))
  }

  function AlgosFrom(f: seq<Bytes>): Algos
    requires |f| == 7 && forall k :: 2 <= k < 7 ==> |f[k]| == 4
  {
    Algos(ReadAlgo(Hash, f[2]), ReadAlgo(Cipher, f[3]), ReadAlgo(AuthTag, f[4]), ReadAlgo(KeyAgreement, f[5]), ReadAlgo(Sas, f[6]))
  }

  function CommitOf(f: seq<Bytes>, algos: Algos, value: Bytes): Commit
    requires |f| == 7 && |value| >= if NonDh(algos.keyAgreement) then 16 else 32
  {
    if NonDh(algos.keyAgreement) then Commit(f[0], f[1], algos, [], [], value[..16])
    else Commit(f[0], f[1], algos, value[..32], value[32..], [])
  }

  function ReadCommit(c: Crypto, content: Bytes): Parsed {
    if |content| < COMMITMESSAGE_FIXED_LENGTH - MESSAGE_HEADER_LENGTH then Malformed(PARSER_ERROR_INVALIDMESSAGE)
    else
      var f := Split(content, COMMIT_WIDTHS);
      var algos := AlgosFrom(f);
      var variableLength := CommitVariableLength(c, algos.keyAgreement);
      if variableLength == 0 || MESSAGE_HEADER_LENGTH + |content| != COMMITMESSAGE_FIXED_LENGTH + variableLength then
        Malformed(PARSER_ERROR_INVALIDMESSAGE)
      else
        Parsed(Signed(CommitBody(CommitOf(f, algos, content[64..64 + variableLength])), content[|content| - MAC_LENGTH..]))
  }

  function ReadDhPart(c: Crypto, keyAgreement: byte, first: bool, content: Bytes): Parsed {
    var pvLength := DhPartValueLength(c, keyAgreement, first);
    if pvLength == 0 then Malformed(PARSER_ERROR_INVALIDCONTEXT)
    else if MESSAGE_HEADER_LENGTH + |content| != DHPARTMESSAGE_FIXED_LENGTH + pvLength then Malformed(PARSER_ERROR_INVALIDMESSAGE)
    else
      DhPartTotal(pvLength);
      var f := Split(content, DhPartWidths(pvLength));
      var dhPart := DhPart(f[0], f[1], f[2], f[3], f[4], f[5]);
      Parsed(Signed(if first then DhPart1Body(dhPart) else DhPart2Body(dhPart), content[|content| - MAC_LENGTH..]))
  }

  function DhPartWidths(pvLength: nat): seq<nat> {
    [32, 8, 8, 8, 8, pvLength]
  }

  lemma DhPartTotal(pvLength: nat)
    ensures Total(DhPartWidths(pvLength)) == 64 + pvLength
  {
    TotalOfFirst(pvLength, []);
    TotalOfFirst(8, [pvLength]);
    TotalOfFirst(8, [8, pvLength]);
    TotalOfFirst(8, [8, 8, pvLength]);
    TotalOfFirst(8, [8, 8, 8, pvLength]);
    TotalOfFirst(32, [8, 8, 8, 8, pvLength]);
  }

  lemma TotalOfFirst(width: nat, others: seq<nat>)
    ensures Total([width] + others) == width + Total(others)
  {
    assert ([width] + others)[1..] == others;
  }

  function ReadConfirm(content: Bytes): Confirm
    requires |content| >= 24
  {
    Confirm(content[..8], content[8..24], content[24..])
  }

  /** A message of the type announced, without what the channel's state adds: the
      hash chain and MAC checks are those of the state functions. */
  function ReadContent(c: Crypto, keyAgreement: byte, kind: Kind, content: Bytes): Parsed {
    match kind
    case HelloKind => ReadHello(content)
    case HelloAckKind => if content == [] then Parsed(HelloAck) else Malformed(PARSER_ERROR_INVALIDMESSAGE)
    case CommitKind => ReadCommit(c, content)
    case DhPart1Kind => ReadDhPart(c, keyAgreement, true, content)
    case DhPart2Kind => ReadDhPart(c, keyAgreement, false, content)
    case Confirm1Kind => if |content| < 24 then Malformed(PARSER_ERROR_UNMATCHINGCONFIRMMAC) else Parsed(Confirm1(ReadConfirm(content)))
    case Confirm2Kind => if |content| < 24 then Malformed(PARSER_ERROR_UNMATCHINGCONFIRMMAC) else Parsed(Confirm2(ReadConfirm(content)))
    case Conf2AckKind => Parsed(Conf2Ack)
  }

  /** The message inside a packet: its header, then its content. */
  function ReadMessage(c: Crypto, keyAgreement: byte, octets: Bytes): Parsed
    requires |octets| >= MESSAGE_HEADER_LENGTH
  {
    if octets[0] != 0x50 || octets[1] != 0x5a then Malformed(PARSER_ERROR_INVALIDMESSAGE)
    else
      var kind := ReadKind(ReadWord(octets[4..8]), ReadWord(octets[8..12]));
      if kind.None? then Malformed(PARSER_ERROR_INVALIDMESSAGE) else ReadContent(c, keyAgreement, kind.value, octets[12..])
  }

  // ---------------------------------------------------------------------
  // Messages that fit their layout

  ghost predicate FullList(family: Family, list: seq<byte>) {
    && |list| <= 7 && DuplicateFree(list) && AllNamed(family, list)
    && forall x :: x in Mandatory(family) ==> x in list
  }

  ghost predicate WellFormedHello(h: Hello) {
    && |h.version| == 4 && |h.clientIdentifier| == 16 && |h.h3| == 32 && |h.zid| == 12
    && FullList(Hash, h.lists.hash) && FullList(Cipher, h.lists.cipher) && FullList(AuthTag, h.lists.authTag)
    && FullList(KeyAgreement, h.lists.keyAgreement) && FullList(Sas, h.lists.sas)
  }

  predicate AlgosNamed(a: Algos) {
    Named(Hash, a.hash) && Named(Cipher, a.cipher) && Named(AuthTag, a.authTag) && Named(KeyAgreement, a.keyAgreement) && Named(Sas, a.sas)
  }

  /** Not of the preshared mode, whose key identifier the model leaves out. */
  predicate WellFormedCommit(c: Crypto, commit: Commit) {
    && |commit.h2| == 32 && |commit.zid| == 12 && AlgosNamed(commit.algos) && commit.algos.keyAgreement != KEYAGREEMENT_PRSH
    && CommitVariableLength(c, commit.algos.keyAgreement) != 0 && CommitLengthMatches(c, commit)
  }

  predicate WellFormedDhPart(c: Crypto, keyAgreement: byte, first: bool, d: DhPart) {
    && |d.h1| == 32 && |d.rs1Id| == 8 && |d.rs2Id| == 8 && |d.auxId| == 8 && |d.pbxId| == 8
    && |d.pv| == DhPartValueLength(c, keyAgreement, first) != 0
  }

  ghost predicate WellFormedBody(c: Crypto, keyAgreement: byte, body: Body) {
    match body
    case HelloBody(h) => WellFormedHello(h)
    case CommitBody(commit) => WellFormedCommit(c, commit)
    case DhPart1Body(d) => WellFormedDhPart(c, keyAgreement, true, d)
    case DhPart2Body(d) => WellFormedDhPart(c, keyAgreement, false, d)
  }

  predicate WellFormedCipherText(confirm: Confirm) {
    |confirm.mac| == 8 && |confirm.iv| == 16 && 40 <= |confirm.cipherText| <= 40 + 4 * 511 && |confirm.cipherText| % 4 == 0
  }

  ghost predicate WellFormedMessage(c: Crypto, keyAgreement: byte, m: Message) {
    match m
    case Signed(body, mac) => WellFormedBody(c, keyAgreement, body) && |mac| == MAC_LENGTH
    case HelloAck => true
    case Confirm1(confirm) => WellFormedCipherText(confirm)
    case Confirm2(confirm) => WellFormedCipherText(confirm)
    case Conf2Ack => true
  }

  // ---------------------------------------------------------------------
  // Parsing undoes building

  lemma KindReadsBack(kind: Kind)
    ensures TypeWords(kind).0 < 0x1_0000_0000 && TypeWords(kind).1 < 0x1_0000_0000
    ensures ReadKind(TypeWords(kind).0, TypeWords(kind).1) == Some(kind)
  {
  }

  lemma HelloFieldsReadBack(h: Hello, rest: Bytes)
    requires |h.version| == 4 && |h.clientIdentifier| == 16 && |h.h3| == 32 && |h.zid| == 12
    ensures |Joined(HelloFields(h))| == Total(HELLO_WIDTHS) == 68
    ensures Split(Joined(HelloFields(h)) + rest, HELLO_WIDTHS) == HelloFields(h)
  {
    WidthsAre(HelloFields(h), HELLO_WIDTHS);
    SplitUndoesJoin(HelloFields(h), HELLO_WIDTHS, rest);
  }

  lemma JoinedOfFirst(field: Bytes, others: seq<Bytes>)
    ensures Joined([field] + others) == field + Joined(others)
  {
    assert ([field] + others)[1..] == others;
  }

  function CountsOf(lists: AlgoLists): Counts {
    Counts(|lists.hash|, |lists.cipher|, |lists.authTag|, |lists.keyAgreement|, |lists.sas|)
  }

  function ChainedLists(lists: AlgoLists, rest: Bytes): Bytes {
    ListOctets(lists.hash) + (ListOctets(lists.cipher) + (ListOctets(lists.authTag)
    + (ListOctets(lists.keyAgreement) + (ListOctets(lists.sas) + rest))))
  }

  lemma ListsChain(lists: AlgoLists, rest: Bytes)
    ensures Joined(ListFields(lists)) + rest == ChainedLists(lists, rest)
    ensures |Joined(ListFields(lists))| == 4 * (|lists.hash| + |lists.cipher| + |lists.authTag| + |lists.keyAgreement| + |lists.sas|)
  {
    var f := ListFields(lists);
    JoinedOfFirst(f[4], []);
    JoinedOfFirst(f[3], [f[4]]);
    JoinedOfFirst(f[2], [f[3], f[4]]);
    JoinedOfFirst(f[1], [f[2], f[3], f[4]]);
    JoinedOfFirst(f[0], [f[1], f[2], f[3], f[4]]);
    Associates(f[0], f[1], f[2], f[3], f[4], rest);
  }

  lemma Associates(a: Bytes, b: Bytes, d: Bytes, e: Bytes, f: Bytes, rest: Bytes)
    ensures a + (b + (d + (e + (f + [])))) + rest == a + (b + (d + (e + (f + rest))))
  {
  }

  lemma OneListReadsBack(family: Family, list: seq<byte>, rest: Bytes)
    requires AllNamed(family, list)
    ensures ReadList(family, ListOctets(list) + rest, |list|) == list
    ensures (ListOctets(list) + rest)[4 * |list|..] == rest
  {
    ListReadsBack(family, list, rest);
  }

  /** The five lists, each read where the one before it ends. */
  lemma ListsReadBack(lists: AlgoLists, rest: Bytes)
    requires AllNamed(Hash, lists.hash) && AllNamed(Cipher, lists.cipher) && AllNamed(AuthTag, lists.authTag)
    requires AllNamed(KeyAgreement, lists.keyAgreement) && AllNamed(Sas, lists.sas)
    ensures |Joined(ListFields(lists))| == 4 * CountsOf(lists).Sum()
    ensures ReadLists(Joined(ListFields(lists)) + rest, CountsOf(lists)) == lists
  {
    ListsChain(lists, rest);
    var fromSas := ListOctets(lists.sas) + rest;
    var fromKeyAgreement := ListOctets(lists.keyAgreement) + fromSas;
    var fromAuthTag := ListOctets(lists.authTag) + fromKeyAgreement;
    var fromCipher := ListOctets(lists.cipher) + fromAuthTag;
    OneListReadsBack(Hash, lists.hash, fromCipher);
    OneListReadsBack(Cipher, lists.cipher, fromAuthTag);
    OneListReadsBack(AuthTag, lists.authTag, fromKeyAgreement);
    OneListReadsBack(KeyAgreement, lists.keyAgreement, fromSas);
    OneListReadsBack(Sas, lists.sas, rest);
  }

  lemma NibblesReadBack(high: nat, low: nat)
    requires high <= 7 && low <= 7
    ensures Count(HighNibble((high % 16 * 16 + low % 16) as byte)) == high && Count(LowNibble((high % 16 * 16 + low % 16) as byte)) == low
    ensures Count(LowNibble((low % 16) as byte)) == low
  {
  }

  lemma FlagsReadBack(h: Hello)
    ensures var flags := HelloFlags(h) as int;
            (flags / 64 % 2 == 1) == h.s && (flags / 32 % 2 == 1) == h.m && (flags / 16 % 2 == 1) == h.p
  {
  }

  lemma FullListIsReceived(family: Family, list: seq<byte>)
    requires FullList(family, list)
    ensures WithMandatory(list, Mandatory(family)) == list
  {
    MandatoryDuplicateFree(family);
    WithMandatoryIdentity(list, Mandatory(family));
  }

  lemma FullListsAreReceived(lists: AlgoLists)
    requires FullList(Hash, lists.hash) && FullList(Cipher, lists.cipher) && FullList(AuthTag, lists.authTag)
    requires FullList(KeyAgreement, lists.keyAgreement) && FullList(Sas, lists.sas)
    ensures Received(lists) == lists
  {
    FullListIsReceived(Hash, lists.hash);
    FullListIsReceived(Cipher, lists.cipher);
    FullListIsReceived(AuthTag, lists.authTag);
    FullListIsReceived(KeyAgreement, lists.keyAgreement);
    FullListIsReceived(Sas, lists.sas);
  }

  lemma TakeApart(a: Bytes, b: Bytes, mac: Bytes)
    ensures (a + b + mac)[|a|..] == b + mac && (a + b + mac)[|a + b + mac| - |mac|..] == mac && a + b + mac == a + (b + mac)
  {
  }

  lemma CountsReadBack(h: Hello)
    requires |h.lists.hash| <= 7 && |h.lists.cipher| <= 7 && |h.lists.authTag| <= 7 && |h.lists.keyAgreement| <= 7 && |h.lists.sas| <= 7
    ensures CountsIn(HelloFields(h)) == CountsOf(h.lists)
  {
    NibblesReadBack(|h.lists.cipher|, |h.lists.authTag|);
    NibblesReadBack(|h.lists.keyAgreement|, |h.lists.sas|);
    NibblesReadBack(0, |h.lists.hash|);
  }

  lemma HelloFromFields(h: Hello)
    ensures HelloFrom(HelloFields(h), h.lists) == h
  {
    FlagsReadBack(h);
  }

  lemma HelloIsReadFrom(content: Bytes, fields: seq<Bytes>, lists: AlgoLists, mac: Bytes)
    requires |content| == 76 + 4 * CountsOf(lists).Sum() && Split(content, HELLO_WIDTHS) == fields
    requires AreHelloFields(fields) && CountsIn(fields) == CountsOf(lists)
    requires ReadLists(content[68..], CountsOf(lists)) == lists && Received(lists) == lists && content[|content| - MAC_LENGTH..] == mac
    ensures ReadHello(content) == Parsed(Signed(HelloBody(HelloFrom(fields, lists)), mac))
  {
  }

  lemma HelloContent(h: Hello, mac: Bytes)
    requires WellFormedHello(h) && |mac| == MAC_LENGTH
    ensures var content := Content(HelloBody(h)) + mac;
            && |content| == 76 + 4 * CountsOf(h.lists).Sum()
            && Split(content, HELLO_WIDTHS) == HelloFields(h)
            && content[68..] == Joined(ListFields(h.lists)) + mac && content[|content| - MAC_LENGTH..] == mac
  {
    var fields, lists := Joined(HelloFields(h)), Joined(ListFields(h.lists));
    HelloFieldsReadBack(h, lists + mac);
    ListsReadBack(h.lists, mac);
    TakeApart(fields, lists, mac);
  }

  lemma HelloReadsBack(h: Hello, mac: Bytes)
    requires WellFormedHello(h) && |mac| == MAC_LENGTH
    ensures ReadHello(Content(HelloBody(h)) + mac) == Parsed(Signed(HelloBody(h), mac))
  {
    HelloContent(h, mac);
    ListsReadBack(h.lists, mac);
    CountsReadBack(h);
    FullListsAreReceived(h.lists);
    HelloFromFields(h);
    HelloIsReadFrom(Content(HelloBody(h)) + mac, HelloFields(h), h.lists, mac);
  }

  lemma CommitFieldsReadBack(commit: Commit, rest: Bytes)
    requires |commit.h2| == 32 && |commit.zid| == 12
    ensures |Joined(CommitFields(commit))| == Total(COMMIT_WIDTHS) == 64
    ensures Split(Joined(CommitFields(commit)) + rest, COMMIT_WIDTHS) == CommitFields(commit)
  {
    WidthsAre(CommitFields(commit), COMMIT_WIDTHS);
    SplitUndoesJoin(CommitFields(commit), COMMIT_WIDTHS, rest);
  }

  lemma AlgosReadFrom(commit: Commit)
    requires AlgosNamed(commit.algos)
    ensures AlgosFrom(CommitFields(commit)) == commit.algos
  {
    var a := commit.algos;
    AlgoReadsBack(Hash, a.hash);
    AlgoReadsBack(Cipher, a.cipher);
    AlgoReadsBack(AuthTag, a.authTag);
    AlgoReadsBack(KeyAgreement, a.keyAgreement);
    AlgoReadsBack(Sas, a.sas);
  }

  lemma CommitIsReadFrom(c: Crypto, content: Bytes, f: seq<Bytes>, algos: Algos, value: Bytes, mac: Bytes)
    requires |f| == 7 && (forall k :: 2 <= k < 7 ==> |f[k]| == 4) && AlgosFrom(f) == algos
    requires |content| == 72 + |value| && Split(content, COMMIT_WIDTHS) == f && content[64..64 + |value|] == value
    requires content[|content| - MAC_LENGTH..] == mac
    requires CommitVariableLength(c, algos.keyAgreement) == |value| && |value| >= if NonDh(algos.keyAgreement) then 16 else 32
    ensures ReadCommit(c, content) == Parsed(Signed(CommitBody(CommitOf(f, algos, value)), mac))
  {
  }

  lemma CommitContent(commit: Commit, mac: Bytes)
    requires |commit.h2| == 32 && |commit.zid| == 12 && |mac| == MAC_LENGTH
    ensures var content, value := Content(CommitBody(commit)) + mac, CommitValue(commit);
            && |content| == 72 + |value| && Split(content, COMMIT_WIDTHS) == CommitFields(commit)
            && content[64..64 + |value|] == value && content[|content| - MAC_LENGTH..] == mac
  {
    CommitFieldsReadBack(commit, CommitValue(commit) + mac);
    TakeApart(Joined(CommitFields(commit)), CommitValue(commit), mac);
  }

  lemma CommitValueReadsBack(c: Crypto, commit: Commit)
    requires WellFormedCommit(c, commit)
    ensures CommitVariableLength(c, commit.algos.keyAgreement) == |CommitValue(commit)|
    ensures |CommitValue(commit)| >= if NonDh(commit.algos.keyAgreement) then 16 else 32
    ensures CommitOf(CommitFields(commit), commit.algos, CommitValue(commit)) == commit
  {
  }

  lemma CommitReadsBack(c: Crypto, commit: Commit, mac: Bytes)
    requires WellFormedCommit(c, commit) && |mac| == MAC_LENGTH
    ensures ReadCommit(c, Content(CommitBody(commit)) + mac) == Parsed(Signed(CommitBody(commit), mac))
  {
    CommitContent(commit, mac);
    CommitValueReadsBack(c, commit);
    AlgosReadFrom(commit);
    CommitIsReadFrom(c, Content(CommitBody(commit)) + mac, CommitFields(commit), commit.algos, CommitValue(commit), mac);
  }

  lemma DhPartContent(d: DhPart, pvLength: nat, mac: Bytes)
    requires |d.h1| == 32 && |d.rs1Id| == 8 && |d.rs2Id| == 8 && |d.auxId| == 8 && |d.pbxId| == 8 && |d.pv| == pvLength
    requires |mac| == MAC_LENGTH
    ensures Total(DhPartWidths(pvLength)) == 64 + pvLength
    ensures var content := Joined(DhPartFields(d)) + mac;
            && |content| == 72 + pvLength && Split(content, DhPartWidths(pvLength)) == DhPartFields(d)
            && content[|content| - MAC_LENGTH..] == mac
  {
    DhPartTotal(pvLength);
    WidthsAre(DhPartFields(d), DhPartWidths(pvLength));
    SplitUndoesJoin(DhPartFields(d), DhPartWidths(pvLength), mac);
  }

  lemma DhPartReadsBack(c: Crypto, keyAgreement: byte, first: bool, d: DhPart, mac: Bytes)
    requires WellFormedDhPart(c, keyAgreement, first, d) && |mac| == MAC_LENGTH
    ensures ReadDhPart(c, keyAgreement, first, Joined(DhPartFields(d)) + mac)
            == Parsed(Signed(if first then DhPart1Body(d) else DhPart2Body(d), mac))
  {
    DhPartContent(d, |d.pv|, mac);
  }

  lemma ConfirmReadsBack(confirm: Confirm)
    requires WellFormedCipherText(confirm)
    ensures |ConfirmContent(confirm)| >= 64 && ReadConfirm(ConfirmContent(confirm)) == confirm
  {
  }

  lemma BodyReadsBack(c: Crypto, keyAgreement: byte, body: Body, mac: Bytes)
    requires WellFormedBody(c, keyAgreement, body) && |mac| == MAC_LENGTH
    ensures ReadContent(c, keyAgreement, BodyKind(body), Content(body) + mac) == Parsed(Signed(body, mac))
  {
    match body
    case HelloBody(h) => HelloReadsBack(h, mac);
    case CommitBody(commit) => CommitReadsBack(c, commit, mac);
    case DhPart1Body(d) => DhPartReadsBack(c, keyAgreement, true, d, mac);
    case DhPart2Body(d) => DhPartReadsBack(c, keyAgreement, false, d, mac);
  }

  lemma ContentReadsBack(c: Crypto, keyAgreement: byte, m: Message)
    requires WellFormedMessage(c, keyAgreement, m)
    ensures ReadContent(c, keyAgreement, KindOf(m), MessageContent(m)) == Parsed(m)
  {
    match m
    case Signed(body, mac) => BodyReadsBack(c, keyAgreement, body, mac);
    case HelloAck =>
    case Confirm1(confirm) => ConfirmReadsBack(confirm);
    case Confirm2(confirm) => ConfirmReadsBack(confirm);
    case Conf2Ack =>
  }

  lemma HeaderReadsBack(kind: Kind, length: nat, content: Bytes)
    requires length < 0x4_0000
    ensures var octets := MessageHeader(kind, length) + content;
            && octets[0] == 0x50 && octets[1] == 0x5a && ReadShort(octets[2..4]) == length / 4
            && ReadKind(ReadWord(octets[4..8]), ReadWord(octets[8..12])) == Some(kind) && octets[12..] == content
  {
    var octets := MessageHeader(kind, length) + content;
    KindReadsBack(kind);
    ShortReadsBack(length / 4);
    WordReadsBack(TypeWords(kind).0);
    WordReadsBack(TypeWords(kind).1);
    assert octets[2..4] == ShortOctets(length / 4);
    assert octets[4..8] == Word32(TypeWords(kind).0) && octets[8..12] == Word32(TypeWords(kind).1);
  }

  /** Whatever fits its layout is parsed back to what it was built from. */
  lemma MessageReadsBack(c: Crypto, keyAgreement: byte, m: Message)
    requires WellFormedMessage(c, keyAgreement, m) && |MessageOctets(m)| < 0x4_0000
    ensures ReadMessage(c, keyAgreement, MessageOctets(m)) == Parsed(m)
    ensures 4 * ReadShort(MessageOctets(m)[2..4]) == |MessageOctets(m)| / 4 * 4
  {
    HeaderReadsBack(KindOf(m), MESSAGE_HEADER_LENGTH + |MessageContent(m)|, MessageContent(m));
    ContentReadsBack(c, keyAgreement, m);
  }

  // ---------------------------------------------------------------------
  // Whole words

  lemma RoundedIsWhole(n: nat) returns (words: nat)
    ensures RoundToWord(n) == 4 * words
  {
    words := (n + 3) / 4;
  }

  lemma VariableLengthIsWhole(c: Crypto, algo: byte) returns (words: nat)
    ensures CommitVariableLength(c, algo) == 4 * words
  {
    var rounded := RoundedIsWhole(c.kemPublicLength(algo));
    words := if algo == KEYAGREEMENT_PRSH then 6 else if algo == KEYAGREEMENT_MULT then 4 else if IsKem(algo) then 8 + rounded
             else if DhPublicLength(algo) != 0 then 8 else 0;
  }

  lemma DhPartLengthIsWhole(c: Crypto, algo: byte, first: bool) returns (words: nat)
    ensures DhPartValueLength(c, algo, first) == 4 * words
  {
    var rounded := RoundedIsWhole(c.kemCipherTextLength(algo));
    words := if DhPublicLength(algo) != 0 then DhPublicLength(algo) / 4 else if first then rounded else 4;
  }

  lemma BodyIsWholeWords(c: Crypto, keyAgreement: byte, body: Body) returns (words: nat)
    requires WellFormedBody(c, keyAgreement, body)
    ensures |Content(body)| == 4 * words
  {
    match body
    case HelloBody(h) =>
      HelloFieldsReadBack(h, []);
      ListsReadBack(h.lists, []);
      words := 17 + CountsOf(h.lists).Sum();
    case CommitBody(commit) =>
      CommitFieldsReadBack(commit, []);
      CommitValueReadsBack(c, commit);
      words := VariableLengthIsWhole(c, commit.algos.keyAgreement);
      words := 16 + words;
    case DhPart1Body(d) =>
      DhPartContent(d, |d.pv|, [0, 0, 0, 0, 0, 0, 0, 0]);
      words := DhPartLengthIsWhole(c, keyAgreement, true);
      words := 16 + words;
    case DhPart2Body(d) =>
      DhPartContent(d, |d.pv|, [0, 0, 0, 0, 0, 0, 0, 0]);
      words := DhPartLengthIsWhole(c, keyAgreement, false);
      words := 16 + words;
  }

  lemma ContentIsWholeWords(c: Crypto, keyAgreement: byte, m: Message) returns (words: nat)
    requires WellFormedMessage(c, keyAgreement, m)
    ensures |MessageContent(m)| == 4 * words
  {
    match m
    case Signed(body, mac) =>
      words := BodyIsWholeWords(c, keyAgreement, body);
      words := words + 2;
    case HelloAck => words := 0;
    case Confirm1(confirm) => words := 6 + |confirm.cipherText| / 4;
    case Confirm2(confirm) => words := 6 + |confirm.cipherText| / 4;
    case Conf2Ack => words := 0;
  }

  lemma FourTimes(n: nat)
    ensures (12 + 4 * n) % 4 == 0
  {
  }

  /** Every message is a whole number of words, as its length field and the cutting
      into fragments need. */
  lemma MessagesAreWholeWords(c: Crypto, keyAgreement: byte, m: Message)
    requires WellFormedMessage(c, keyAgreement, m)
    ensures |MessageOctets(m)| % 4 == 0 && |MessageOctets(m)| >= MESSAGE_HEADER_LENGTH
  {
    var words := ContentIsWholeWords(c, keyAgreement, m);
    FourTimes(words);
  }

  // ---------------------------------------------------------------------
  // The plain part of a Confirm

  function ConfirmFlags(b: ConfirmBody): byte {
    (if b.e then 8 else 0) + (if b.v then 4 else 0) + (if b.a then 2 else 0) + (if b.d then 1 else 0)
  }

  function Plain(b: ConfirmBody): Bytes {
    b.h0 + [0, (b.sigLen / 0x100 % 2) as byte, (b.sigLen % 0x100) as byte, ConfirmFlags(b)] + Word32(b.cacheExpiration)
    + if b.sigLen > 0 then b.signatureType + b.signature else []
  }

  function SignatureLength(plain: Bytes): nat
    requires |plain| >= 40
  {
    plain[33] as nat % 2 * 0x100 + plain[34] as nat
  }

  predicate Readable(plain: Bytes) {
    |plain| >= 40 && |plain| >= 40 + 4 * SignatureLength(plain)
  }

  function ReadPlain(plain: Bytes): ConfirmBody
    requires Readable(plain)
  {
    var flags, n := plain[35] as nat, SignatureLength(plain);
    ConfirmBody(plain[..32], n, flags / 8 % 2 == 1, flags / 4 % 2 == 1, flags / 2 % 2 == 1, flags % 2 == 1, ReadWord(plain[36..40]),
                if n > 0 then plain[40..44] else [], if n > 0 then plain[44..40 + 4 * n] else [])
  }

  lemma ConfirmFlagsReadBack(b: ConfirmBody)
    ensures var flags := ConfirmFlags(b) as nat;
            && (flags / 8 % 2 == 1) == b.e && (flags / 4 % 2 == 1) == b.v && (flags / 2 % 2 == 1) == b.a && (flags % 2 == 1) == b.d
  {
  }

  lemma SignatureLengthReadsBack(n: nat)
    requires n < 512
    ensures n / 0x100 % 2 % 2 * 0x100 + n % 0x100 == n
  {
  }

  lemma PlainFields(b: ConfirmBody)
    requires WellFormedConfirm(b)
    ensures var plain := Plain(b);
            && |plain| == 40 + 4 * b.sigLen && plain[..32] == b.h0 && plain[33] == (b.sigLen / 0x100 % 2) as byte
            && plain[34] == (b.sigLen % 0x100) as byte && plain[35] == ConfirmFlags(b) && plain[36..40] == Word32(b.cacheExpiration)
            && (b.sigLen > 0 ==> plain[40..44] == b.signatureType && plain[44..] == b.signature)
  {
  }

  /** A Confirm's plain part is read back, up to signatures of 511 words. */
  lemma PlainReadsBack(b: ConfirmBody)
    requires WellFormedConfirm(b)
    ensures Readable(Plain(b)) && ReadPlain(Plain(b)) == b
  {
    PlainFields(b);
    SignatureLengthReadsBack(b.sigLen);
    ConfirmFlagsReadBack(b);
    WordReadsBack(b.cacheExpiration);
  }

  // ---------------------------------------------------------------------
  // Packets

  /** "ZRTP". */
  const MAGIC_COOKIE := 0x5a525450

  /** zrtpPacketSetHeader, with the sequence number. */
  function PacketHeader(sequenceNumber: nat, ssrc: nat): (octets: Bytes)
    ensures |octets| == PACKET_HEADER_LENGTH
  {
    [0x10, 0x00] + ShortOctets(sequenceNumber) + Word32(MAGIC_COOKIE) + Word32(ssrc)
  }

  function PacketOctets(sequenceNumber: nat, ssrc: nat, message: Bytes): Bytes {
    var body := PacketHeader(sequenceNumber, ssrc) + message;
    body + Crc32.FieldOf(body)
  }

  datatype Incoming = Incoming(sequenceNumber: nat, ssrc: nat, parsed: Parsed) | Dropped(code: int)

  /** bzrtp_packetCheck then bzrtp_packetParser on a packet that is not a fragment;
      last is the last sequence number received. */
  function ReadPacket(c: Crypto, keyAgreement: byte, last: nat, packet: Bytes): Incoming
    requires packet != [] ==> packet[0] != 0x11
  {
    if |packet| < MIN_PACKET_LENGTH || |packet| > MAX_PACKET_LENGTH then Dropped(PARSER_ERROR_INVALIDPACKET)
    else if packet[0] != 0x10 || packet[1] != 0 || ReadWord(packet[4..8]) != MAGIC_COOKIE then Dropped(PARSER_ERROR_INVALIDPACKET)
    else if ReadShort(packet[2..4]) <= last then Dropped(PARSER_ERROR_OUTOFORDER)
    else if !Crc32.FieldHolds(packet) then Dropped(PARSER_ERROR_INVALIDCRC)
    else
      Incoming(ReadShort(packet[2..4]), ReadWord(packet[8..12]), ReadMessage(c, keyAgreement, packet[12..|packet| - 4]))
  }

  lemma PacketParts(sequenceNumber: nat, ssrc: nat, message: Bytes, field: Bytes)
    requires |field| == 4
    ensures var packet := PacketHeader(sequenceNumber, ssrc) + message + field;
            && packet[0] == 0x10 && packet[1] == 0 && packet[2..4] == ShortOctets(sequenceNumber)
            && packet[4..8] == Word32(MAGIC_COOKIE) && packet[8..12] == Word32(ssrc)
            && packet[12..|packet| - 4] == message && packet[|packet| - 4..] == field
            && packet[..|packet| - 4] == PacketHeader(sequenceNumber, ssrc) + message
  {
  }

  /** Built, numbered, sealed, checked and parsed: the packet gives back its
      message, provided it is newer than the last and no longer than packets may
      be. */
  lemma PacketReadsBack(c: Crypto, keyAgreement: byte, last: nat, sequenceNumber: nat, ssrc: nat, m: Message)
    requires WellFormedMessage(c, keyAgreement, m) && last < sequenceNumber < 0x1_0000 && ssrc < 0x1_0000_0000
    ensures var packet := PacketOctets(sequenceNumber, ssrc, MessageOctets(m));
            ReadPacket(c, keyAgreement, last, packet)
            == if |packet| <= MAX_PACKET_LENGTH then Incoming(sequenceNumber, ssrc, Parsed(m)) else Dropped(PARSER_ERROR_INVALIDPACKET)
  {
    var message := MessageOctets(m);
    PacketParts(sequenceNumber, ssrc, message, Crc32.FieldOf(PacketHeader(sequenceNumber, ssrc) + message));
    ShortReadsBack(sequenceNumber);
    WordReadsBack(MAGIC_COOKIE);
    WordReadsBack(ssrc);
    if |PacketOctets(sequenceNumber, ssrc, message)| <= MAX_PACKET_LENGTH {
      MessageReadsBack(c, keyAgreement, m);
    }
  }

  /** A packet with one octet changed is dropped. */
  lemma ChangedPacketIsDropped(c: Crypto, keyAgreement: byte, last: nat, sequenceNumber: nat, ssrc: nat, m: Message, i: nat, octet: byte)
    requires i < |PacketOctets(sequenceNumber, ssrc, MessageOctets(m))| && octet != PacketOctets(sequenceNumber, ssrc, MessageOctets(m))[i]
    requires i == 0 ==> octet != 0x11
    ensures ReadPacket(c, keyAgreement, last, PacketOctets(sequenceNumber, ssrc, MessageOctets(m))[i := octet]).Dropped?
  {
    var message := MessageOctets(m);
    var packet := PacketOctets(sequenceNumber, ssrc, message);
    PacketParts(sequenceNumber, ssrc, message, Crc32.FieldOf(PacketHeader(sequenceNumber, ssrc) + message));
    Crc32.ChangedFieldIsCaught(packet, i, octet);
  }
}
