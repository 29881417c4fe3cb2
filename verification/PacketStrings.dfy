/** bzrtp_packetBuild and the layout part of bzrtp_packetParser in the form of
    src/packetParser.c: octets written and read through a pointer that advances. */
module PacketStrings {
  import opened Octets
  import opened Negotiation
  import opened Agreement
  import opened Messages
  import opened Protocol
  import opened Layout
  import opened Codec

  /** A packet string being written, messageString pointing into it. */
  class PacketString {
    var octets: array<byte>
    var at: nat

    predicate Valid()
      reads this
    {
      at <= octets.Length
    }

    function Written(): Bytes
      reads this, octets
      requires Valid()
    {
      octets[..at]
    }

    constructor (length: nat)
      ensures Valid() && fresh(octets) && octets.Length == length && Written() == []
    {
      octets := new byte[length];
      at := 0;
    }

    /** memcpy to the pointer, which then advances. */
    method Put(s: Bytes)
      requires Valid() && at + |s| <= octets.Length
      modifies this`at, octets
      ensures Valid() && Written() == old(Written()) + s
    {
      for k := 0 to |s|
        invariant at == old(at) && octets == old(octets)
        invariant octets[..at] == old(octets[..at]) && octets[at..at + k] == s[..k]
      {
        octets[at + k] := s[k];
      }
      at := at + |s|;
      assert octets[..at] == octets[..old(at)] + octets[old(at)..at];
    }

    method PutFields(fields: seq<Bytes>)
      requires Valid() && at + |Joined(fields)| <= octets.Length
      modifies this`at, octets
      ensures Valid() && Written() == old(Written()) + Joined(fields)
    {
      var k := 0;
      while k < |fields|
        invariant Valid() && k <= |fields| && Written() + Joined(fields[k..]) == old(Written()) + Joined(fields)
      {
        assert fields[k..] == [fields[k]] + fields[k + 1..];
        JoinedOfFirst(fields[k], fields[k + 1..]);
        Put(fields[k]);
        k := k + 1;
      }
    }

    /** The loop over the algorithms of one family. */
    method PutList(list: seq<byte>)
      requires Valid() && at + 4 * |list| <= octets.Length
      modifies this`at, octets
      ensures Valid() && Written() == old(Written()) + ListOctets(list)
    {
      for k := 0 to |list|
        invariant Valid() && Written() == old(Written()) + ListOctets(list[..k])
      {
        assert list[..k + 1][..k] == list[..k];
        Put(NameOctets(list[k]));
      }
      assert list[..|list|] == list;
    }
  }

  method PutLists(p: PacketString, lists: AlgoLists)
    requires p.Valid() && p.at + |Joined(ListFields(lists))| <= p.octets.Length
    modifies p`at, p.octets
    ensures p.Valid() && p.Written() == old(p.Written()) + Joined(ListFields(lists))
  {
    ListsChain(lists, []);
    p.PutList(lists.hash);
    p.PutList(lists.cipher);
    p.PutList(lists.authTag);
    p.PutList(lists.keyAgreement);
    p.PutList(lists.sas);
    AppendChain(old(p.Written()), lists);
  }

  lemma AppendChain(before: Bytes, lists: AlgoLists)
    ensures before + ListOctets(lists.hash) + ListOctets(lists.cipher) + ListOctets(lists.authTag) + ListOctets(lists.keyAgreement)
            + ListOctets(lists.sas) == before + Joined(ListFields(lists))
  {
    ListsChain(lists, []);
    assert Joined(ListFields(lists)) + [] == Joined(ListFields(lists));
    AppendedLists(before, ListOctets(lists.hash), ListOctets(lists.cipher), ListOctets(lists.authTag), ListOctets(lists.keyAgreement),
            ListOctets(lists.sas));
  }

  lemma AppendedLists(before: Bytes, a: Bytes, b: Bytes, d: Bytes, e: Bytes, f: Bytes)
    ensures before + a + b + d + e + f == before + (a + (b + (d + (e + (f + [])))))
  {
  }

  method PutHello(p: PacketString, h: Hello)
    requires p.Valid() && p.at + |Content(HelloBody(h))| <= p.octets.Length
    modifies p`at, p.octets
    ensures p.Valid() && p.Written() == old(p.Written()) + Content(HelloBody(h))
  {
    Appended(p.Written(), Joined(HelloFields(h)), Joined(ListFields(h.lists)));
    p.PutFields(HelloFields(h));
    PutLists(p, h.lists);
  }

  lemma Appended(a: Bytes, b: Bytes, d: Bytes)
    ensures a + b + d == a + (b + d)
  {
  }

  /** The content of a signed message. */
  method PutContent(p: PacketString, body: Body)
    requires p.Valid() && p.at + |Content(body)| <= p.octets.Length
    modifies p`at, p.octets
    ensures p.Valid() && p.Written() == old(p.Written()) + Content(body)
  {
    match body
    case HelloBody(h) => PutHello(p, h);
    case CommitBody(commit) =>
      p.PutFields(CommitFields(commit));
      p.Put(CommitValue(commit));
    case DhPart1Body(d) => p.PutFields(DhPartFields(d));
    case DhPart2Body(d) => p.PutFields(DhPartFields(d));
  }

  lemma SignedOctets(body: Body, mac: Bytes)
    requires |mac| == MAC_LENGTH
    ensures MessageOctets(Signed(body, mac)) == Unsigned(body) + mac
  {
    var length := MESSAGE_HEADER_LENGTH + |Content(body)| + MAC_LENGTH;
    assert MessageHeader(BodyKind(body), length) + (Content(body) + mac) == MessageHeader(BodyKind(body), length) + Content(body) + mac;
  }

  /** The message up to its MAC. */
  method BuildUnsigned(body: Body) returns (p: PacketString)
    ensures fresh(p) && fresh(p.octets) && p.Valid() && p.Written() == Unsigned(body) && p.octets.Length == |Unsigned(body)| + MAC_LENGTH
  {
    var length := MESSAGE_HEADER_LENGTH + |Content(body)| + MAC_LENGTH;
    p := new PacketString(length);
    p.Put(MessageHeader(BodyKind(body), length));
    PutContent(p, body);
  }

  /** bzrtp_packetBuild on a signed message, the message only: the MAC is computed
      over what is already in the packet string. */
  method BuildSigned(c: Crypto, key: Bytes, body: Body) returns (p: PacketString)
    requires |c.hmacSha256(key, Unsigned(body))| == MAC_LENGTH
    ensures fresh(p) && p.octets[..] == MessageOctets(Signed(body, c.hmacSha256(key, Unsigned(body))))
  {
    p := BuildUnsigned(body);
    SignedOctets(body, c.hmacSha256(key, Unsigned(body)));
    p.Put(c.hmacSha256(key, p.octets[..p.octets.Length - MAC_LENGTH]));
    assert p.octets[..] == p.Written();
  }

  // ---------------------------------------------------------------------
  // Reading

  /** The fields read so far, and what remains. */
  ghost predicate SplitSoFar(octets: Bytes, widths: seq<nat>, k: nat, fields: seq<Bytes>, rest: Bytes)
    requires Total(widths) <= |octets|
  {
    && k <= |widths| && Total(widths[k..]) <= |rest|
    && fields + Split(rest, widths[k..]) == Split(octets, widths)
    && rest[Total(widths[k..])..] == octets[Total(widths)..]
  }

  lemma SplitTurn(octets: Bytes, widths: seq<nat>, k: nat, fields: seq<Bytes>, rest: Bytes)
    requires Total(widths) <= |octets| && k < |widths| && SplitSoFar(octets, widths, k, fields, rest)
    ensures widths[k] <= |rest| && SplitSoFar(octets, widths, k + 1, fields + [rest[..widths[k]]], rest[widths[k]..])
  {
    TotalOfFirst(widths[k], widths[k + 1..]);
    assert widths[k..] == [widths[k]] + widths[k + 1..];
    assert widths[k..][1..] == widths[k + 1..];
    assert Split(rest, widths[k..]) == [rest[..widths[k]]] + Split(rest[widths[k]..], widths[k + 1..]);
    Regroup(fields, rest[..widths[k]], Split(rest[widths[k]..], widths[k + 1..]));
  }

  lemma Regroup(fields: seq<Bytes>, field: Bytes, others: seq<Bytes>)
    ensures fields + ([field] + others) == fields + [field] + others
  {
  }

  /** A message being read, messageContent pointing into it. */
  class MessageReader {
    const input: Bytes
    var messageContent: nat

    predicate Valid()
      reads this
    {
      messageContent <= |input|
    }

    function Rest(): Bytes
      reads this
      requires Valid()
    {
      input[messageContent..]
    }

    constructor (input: Bytes)
      ensures Valid() && Rest() == input && this.input == input
    {
      this.input := input;
      messageContent := 0;
    }

    /** memcpy from the pointer, which then advances. */
    method Get(n: nat) returns (s: Bytes)
      requires Valid() && n <= |Rest()|
      modifies this`messageContent
      ensures Valid() && s == old(Rest())[..n] && Rest() == old(Rest())[n..]
    {
      s := input[messageContent..messageContent + n];
      messageContent := messageContent + n;
    }

    method GetFields(widths: seq<nat>) returns (fields: seq<Bytes>)
      requires Valid() && Total(widths) <= |Rest()|
      modifies this`messageContent
      ensures Valid() && fields == Split(old(Rest()), widths) && Rest() == old(Rest())[Total(widths)..]
    {
      fields := [];
      for k := 0 to |widths|
        invariant Valid() && SplitSoFar(old(Rest()), widths, k, fields, Rest())
      {
        SplitTurn(old(Rest()), widths, k, fields, Rest());
        var field := Get(widths[k]);
        fields := fields + [field];
      }
    }

    /** The loop over the algorithms of one family. */
    method GetList(family: Family, count: nat) returns (list: seq<byte>)
      requires Valid() && 4 * count <= |Rest()|
      modifies this`messageContent
      ensures Valid() && list == ReadList(family, old(Rest()), count) && Rest() == old(Rest())[4 * count..]
    {
      list := [];
      for k := 0 to count
        invariant Valid() && Rest() == old(Rest())[4 * k..] && list == ReadList(family, old(Rest()), k)
      {
        assert Rest()[..4] == old(Rest())[4 * k..4 * k + 4];
        var name := Get(4);
        list := list + [ReadAlgo(family, name)];
      }
    }
  }

  lemma SlicesAdd(s: Bytes, a: nat, b: nat)
    requires a + b <= |s|
    ensures s[a..][b..] == s[a + b..]
  {
  }

  lemma AfterLists(s: Bytes, n: Counts)
    requires 4 * n.Sum() <= |s|
    ensures s[4 * n.hc..][4 * n.cc..][4 * n.ac..][4 * n.kc..][4 * n.sc..] == s[4 * n.Sum()..]
  {
    SlicesAdd(s, 4 * n.hc, 4 * n.cc);
    SlicesAdd(s, 4 * n.hc + 4 * n.cc, 4 * n.ac);
    SlicesAdd(s, 4 * n.hc + 4 * n.cc + 4 * n.ac, 4 * n.kc);
    SlicesAdd(s, 4 * n.hc + 4 * n.cc + 4 * n.ac + 4 * n.kc, 4 * n.sc);
  }

  method GetLists(p: MessageReader, n: Counts) returns (lists: AlgoLists)
    requires p.Valid() && 4 * n.Sum() <= |p.Rest()|
    modifies p`messageContent
    ensures p.Valid() && lists == ReadLists(old(p.Rest()), n) && p.Rest() == old(p.Rest())[4 * n.Sum()..]
  {
    AfterLists(p.Rest(), n);
    var hash := p.GetList(Hash, n.hc);
    var cipher := p.GetList(Cipher, n.cc);
    var authTag := p.GetList(AuthTag, n.ac);
    var keyAgreement := p.GetList(KeyAgreement, n.kc);
    var sas := p.GetList(Sas, n.sc);
    lists := AlgoLists(hash, cipher, authTag, keyAgreement, sas);
  }

  lemma LastOctets(content: Bytes, first: nat, variable: nat)
    requires |content| == first + variable + MAC_LENGTH
    ensures content[first..][variable..][..MAC_LENGTH] == content[|content| - MAC_LENGTH..]
    ensures content[first..][..variable] == content[first..first + variable]
  {
  }

  /** The fields of fixed width at the start of a message. */
  method GetFirst(content: Bytes, widths: seq<nat>, total: nat) returns (p: MessageReader, f: seq<Bytes>)
    requires total == Total(widths) <= |content|
    ensures fresh(p) && p.Valid() && p.Rest() == content[total..] && f == Split(content, widths)
  {
    p := new MessageReader(content);
    f := p.GetFields(widths);
  }

  lemma FixedTotals()
    ensures Total(HELLO_WIDTHS) == 68 && Total(COMMIT_WIDTHS) == 64
  {
  }

  method ParseHello(content: Bytes) returns (parsed: Parsed)
    ensures parsed == ReadHello(content)
  {
    if |content| < HELLOMESSAGE_FIXED_LENGTH - MESSAGE_HEADER_LENGTH {
      return Malformed(PARSER_ERROR_INVALIDMESSAGE);
    }
    FixedTotals();
    var p, f := GetFirst(content, HELLO_WIDTHS, 68);
    var counts := CountsIn(f);
    if MESSAGE_HEADER_LENGTH + |content| != HELLOMESSAGE_FIXED_LENGTH + 4 * counts.Sum() {
      return Malformed(PARSER_ERROR_INVALIDMESSAGE);
    }
    LastOctets(content, 68, 4 * counts.Sum());
    var lists := GetLists(p, counts);
    var mac := p.Get(MAC_LENGTH);
    parsed := Parsed(Signed(HelloBody(HelloFrom(f, Received(lists))), mac));
  }

  method ParseCommit(c: Crypto, content: Bytes) returns (parsed: Parsed)
    ensures parsed == ReadCommit(c, content)
  {
    if |content| < COMMITMESSAGE_FIXED_LENGTH - MESSAGE_HEADER_LENGTH {
      return Malformed(PARSER_ERROR_INVALIDMESSAGE);
    }
    FixedTotals();
    var p, f := GetFirst(content, COMMIT_WIDTHS, 64);
    var algos := AlgosFrom(f);
    var variableLength := CommitVariableLength(c, algos.keyAgreement);
    if variableLength == 0 || MESSAGE_HEADER_LENGTH + |content| != COMMITMESSAGE_FIXED_LENGTH + variableLength {
      return Malformed(PARSER_ERROR_INVALIDMESSAGE);
    }
    LastOctets(content, 64, variableLength);
    var value := p.Get(variableLength);
    var mac := p.Get(MAC_LENGTH);
    parsed := Parsed(Signed(CommitBody(CommitOf(f, algos, value)), mac));
  }

  method ParseDhPart(c: Crypto, keyAgreement: byte, first: bool, content: Bytes) returns (parsed: Parsed)
    ensures parsed == ReadDhPart(c, keyAgreement, first, content)
  {
    var pvLength := DhPartValueLength(c, keyAgreement, first);
    if pvLength == 0 {
      return Malformed(PARSER_ERROR_INVALIDCONTEXT);
    }
    if MESSAGE_HEADER_LENGTH + |content| != DHPARTMESSAGE_FIXED_LENGTH + pvLength {
      return Malformed(PARSER_ERROR_INVALIDMESSAGE);
    }
    DhPartTotal(pvLength);
    LastOctets(content, 64 + pvLength, 0);
    var p, f := GetFirst(content, DhPartWidths(pvLength), 64 + pvLength);
    var mac := p.Get(MAC_LENGTH);
    var dhPart := DhPart(f[0], f[1], f[2], f[3], f[4], f[5]);
    parsed := Parsed(Signed(if first then DhPart1Body(dhPart) else DhPart2Body(dhPart), mac));
  }
}
