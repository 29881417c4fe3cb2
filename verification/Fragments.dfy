/** Fragmentation and reassembly of packets: the while loop at the end of
    bzrtp_packetBuild and the fragment branch of bzrtp_packetCheck, in
    src/packetParser.c. */
module Fragments {
  import opened Octets

  const PACKET_HEADER_LENGTH := 12
  const PACKET_OVERHEAD := 16
  const FRAGMENTEDPACKET_OVERHEAD := 24
  const MIN_PACKET_LENGTH := 28
  const MAX_PACKET_LENGTH := 3072
  const MINIMUM_MTU := 600

  type uint16 = n: nat | n < 0x1_0000

  /** A fragment packet. total, offset and length are in words of four octets, as
      on the wire. */
  datatype Fragment = Fragment(id: uint16, total: uint16, offset: uint16, length: uint16, payload: Bytes)

  /** An entry of the receiver's list of fragments. */
  datatype Info = Info(offset: nat, length: nat)

  /** The receiver's incomingFragmentedPacket; packet is packetString, where the
      message starts after the header. */
  datatype Assembly = Assembly(id: uint16, total: uint16, infos: seq<Info>, packet: Bytes)

  datatype Reply = InvalidPacket | OutOfOrder | PacketFragment | Packet(packet: Bytes)

  // ---------------------------------------------------------------------
  // One fragment, on values

  function SumLengths(infos: seq<Info>): nat {
    if infos == [] then 0 else SumLengths(infos[..|infos| - 1]) + infos[|infos| - 1].length
  }

  /** Where a fragment at offset goes in a list sorted by offset. */
  function Place(infos: seq<Info>, offset: nat): (k: nat)
    ensures k <= |infos|
    ensures forall j :: 0 <= j < k ==> infos[j].offset < offset
    ensures k < |infos| ==> infos[k].offset >= offset
  {
    if infos == [] || infos[0].offset >= offset then 0 else 1 + Place(infos[1..], offset)
  }

  predicate Present(infos: seq<Info>, offset: nat) {
    var k := Place(infos, offset);
    k < |infos| && infos[k].offset == offset
  }

  function Insert(infos: seq<Info>, info: Info): seq<Info> {
    var k := Place(infos, info.offset);
    if Present(infos, info.offset) then infos else infos[..k] + [info] + infos[k..]
  }

  function Overlay(buffer: Bytes, at: nat, payload: Bytes): (r: Bytes)
    requires at + |payload| <= |buffer|
    ensures |r| == |buffer|
  {
    buffer[..at] + payload + buffer[at + |payload|..]
  }

  /** The length check every packet passes first. */
  predicate LengthAccepted(f: Fragment) {
    MIN_PACKET_LENGTH <= FRAGMENTEDPACKET_OVERHEAD + |f.payload| <= MAX_PACKET_LENGTH
  }

  /** A fragment the receiver can store: it is inside the buffer of the message it
      says it belongs to. */
  predicate Storable(s: Assembly, f: Fragment) {
    && f.id >= 1 && 4 * f.offset + |f.payload| <= 4 * f.total
    && (s.id == f.id ==> s.total == f.total && |s.packet| == PACKET_OVERHEAD + 4 * f.total)
  }

  /** A fragment of a newer message discards what was collected; blank is the
      content of the buffer then allocated. */
  function Opened(s: Assembly, f: Fragment, blank: Bytes): Assembly {
    if s.id < f.id then Assembly(f.id, f.total, [], blank) else s
  }

  function Stored(s: Assembly, f: Fragment): Assembly
    requires PACKET_HEADER_LENGTH + 4 * f.offset + |f.payload| <= |s.packet|
  {
    if Present(s.infos, f.offset) then s
    else s.(infos := Insert(s.infos, Info(f.offset, f.length)),
            packet := Overlay(s.packet, PACKET_HEADER_LENGTH + 4 * f.offset, f.payload))
  }

  /** The lengths received are added up in sixteen bits. */
  function Completed(s: Assembly, f: Fragment): (Assembly, Reply) {
    if SumLengths(s.infos) % 0x1_0000 == f.total then (s.(id := 0, infos := []), Packet(s.packet))
    else (s, PacketFragment)
  }

  /** bzrtp_packetCheck on a fragment. */
  function Step(s: Assembly, f: Fragment, blank: Bytes): (Assembly, Reply)
    requires Storable(s, f) && |blank| == PACKET_OVERHEAD + 4 * f.total
  {
    if !LengthAccepted(f) then (s, InvalidPacket)
    else if s.id > f.id then (s, OutOfOrder)
    else Completed(Stored(Opened(s, f, blank), f), f)
  }

  // ---------------------------------------------------------------------
  // One fragment, in place

  /** The channel's incomingFragmentedPacket. */
  class Reassembler {
    var messageId: uint16
    var messageLength: uint16
    var fragments: seq<Info>
    var packetString: array<byte>

    function Contents(): Assembly
      reads this, packetString
    {
      Assembly(messageId, messageLength, fragments, packetString[..])
    }

    constructor ()
      ensures Contents() == Assembly(0, 0, [], []) && fresh(packetString)
    {
      messageId, messageLength, fragments := 0, 0, [];
      packetString := new byte[0];
    }

    /** memcpy into packetString. */
    method Copy(at: nat, payload: Bytes)
      requires at + |payload| <= packetString.Length
      modifies packetString
      ensures packetString[..] == Overlay(old(packetString[..]), at, payload)
    {
      for k := 0 to |payload|
        invariant packetString[..at] == old(packetString[..at])
        invariant packetString[at..at + k] == payload[..k]
        invariant packetString[at + |payload|..] == old(packetString[at + |payload|..])
      {
        packetString[at + k] := payload[k];
        assert packetString[at..at + k + 1] == packetString[at..at + k] + [payload[k]];
        assert payload[..k + 1] == payload[..k] + [payload[k]];
      }
      assert packetString[..] == packetString[..at] + packetString[at..at + |payload|] + packetString[at + |payload|..];
    }

    /** The search of the list for the place of a fragment. */
    method FindPlace(offset: nat) returns (k: nat)
      ensures k == Place(fragments, offset)
    {
      k := 0;
      while k < |fragments| && fragments[k].offset < offset
        invariant k <= |fragments|
        invariant Place(fragments, offset) == k + Place(fragments[k..], offset)
      {
        assert fragments[k..][1..] == fragments[k + 1..];
        k := k + 1;
      }
    }

    /** The sum of the lengths received. */
    method ReceivedLength() returns (n: uint16)
      ensures n == SumLengths(fragments) % 0x1_0000
    {
      n := 0;
      for k := 0 to |fragments|
        invariant n == SumLengths(fragments[..k]) % 0x1_0000
      {
        n := (n + fragments[k].length) % 0x1_0000;
        assert fragments[..k + 1][..k] == fragments[..k];
      }
      assert fragments[..|fragments|] == fragments;
    }

    method Open(f: Fragment) returns (ghost blank: Bytes)
      modifies this
      ensures |blank| == PACKET_OVERHEAD + 4 * f.total
      ensures packetString == old(packetString) || fresh(packetString)
      ensures Contents() == Opened(old(Contents()), f, blank)
    {
      blank := seq(PACKET_OVERHEAD + 4 * f.total, _ => 0);
      if messageId < f.id {
        packetString := new byte[PACKET_OVERHEAD + f.total * 4];
        messageId, messageLength, fragments := f.id, f.total, [];
        blank := packetString[..];
      }
    }

    method Store(f: Fragment)
      requires PACKET_HEADER_LENGTH + 4 * f.offset + |f.payload| <= packetString.Length
      modifies this`fragments, packetString
      ensures Contents() == Stored(old(Contents()), f)
    {
      var k := FindPlace(f.offset);
      if !(k < |fragments| && fragments[k].offset == f.offset) {
        fragments := fragments[..k] + [Info(f.offset, f.length)] + fragments[k..];
        Copy(PACKET_HEADER_LENGTH + 4 * f.offset, f.payload);
      }
    }

    /** bzrtp_packetCheck on a fragment. */
    method Receive(f: Fragment) returns (reply: Reply, ghost blank: Bytes)
      requires Storable(Contents(), f)
      modifies this, packetString
      ensures |blank| == PACKET_OVERHEAD + 4 * f.total
      ensures packetString == old(packetString) || fresh(packetString)
      ensures (Contents(), reply) == Step(old(Contents()), f, blank)
    {
      blank := seq(PACKET_OVERHEAD + 4 * f.total, _ => 0);
      if !LengthAccepted(f) {
        return InvalidPacket, blank;
      }
      if messageId > f.id {
        return OutOfOrder, blank;
      }
      blank := Open(f);
      Store(f);
      var received := ReceivedLength();
      if received == f.total {
        reply := Packet(packetString[..]);
        fragments := [];
        messageId := 0;
      } else {
        reply := PacketFragment;
      }
    }
  }

  // ---------------------------------------------------------------------
  // Cutting a message

  /** A piece of a message, in octets. */
  datatype Cut = Cut(at: nat, size: nat)

  /** A message and the pieces it is sent in. */
  datatype Source = Source(message: Bytes, cuts: seq<Cut>)

  /** The cuts follow each other from the start of the message to end, and only
      the last may be shorter than a word. */
  predicate Tiles(cuts: seq<Cut>, end: nat) {
    if cuts == [] then end == 0
    else
      var last := cuts[|cuts| - 1];
      && last.size > 0 && last.at + last.size == end && Tiles(cuts[..|cuts| - 1], last.at)
      && (forall j :: 0 <= j < |cuts| - 1 ==> cuts[j].size >= 4)
  }

  ghost predicate WellCut(source: Source) {
    && |source.message| % 4 == 0 && 12 <= |source.message| && |source.message| + PACKET_OVERHEAD < 0x1_0000
    && Tiles(source.cuts, |source.message|)
  }

  lemma {:induction false} CutsAreInside(cuts: seq<Cut>, end: nat, k: nat)
    requires Tiles(cuts, end) && k < |cuts|
    ensures cuts[k].at + cuts[k].size <= end
    ensures k < |cuts| - 1 ==> cuts[k].at + cuts[k].size <= cuts[|cuts| - 1].at
  {
    if k < |cuts| - 1 {
      CutsAreInside(cuts[..|cuts| - 1], cuts[|cuts| - 1].at, k);
    }
  }

  /** The fragment packet of a piece: the fields in words drop what is left over. */
  function FragmentOf(id: uint16, source: Source, k: nat): (f: Fragment)
    requires WellCut(source) && k < |source.cuts|
    ensures |f.payload| == source.cuts[k].size && 4 * f.offset + |f.payload| <= 4 * f.total
  {
    CutsAreInside(source.cuts, |source.message|, k);
    var cut := source.cuts[k];
    Fragment(id, |source.message| / 4, cut.at / 4, cut.size / 4, source.message[cut.at..cut.at + cut.size])
  }

  /** The pieces from at on when packets may not be longer than mtu. */
  function CutFrom(length: nat, mtu: nat, at: nat): (cuts: seq<Cut>)
    requires mtu >= MINIMUM_MTU
    decreases length - at
  {
    if at >= length then []
    else
      var size := if length - at < mtu - FRAGMENTEDPACKET_OVERHEAD then length - at else mtu - FRAGMENTEDPACKET_OVERHEAD;
      [Cut(at, size)] + CutFrom(length, mtu, at + size)
  }

  lemma {:induction false} CutFromTiles(done: seq<Cut>, length: nat, mtu: nat, at: nat)
    requires mtu >= MINIMUM_MTU && at <= length
    requires Tiles(done, at) && (at < length ==> forall j :: 0 <= j < |done| ==> done[j].size >= 4)
    ensures Tiles(done + CutFrom(length, mtu, at), length)
    decreases length - at
  {
    if at < length {
      var size := if length - at < mtu - FRAGMENTEDPACKET_OVERHEAD then length - at else mtu - FRAGMENTEDPACKET_OVERHEAD;
      var rest := CutFrom(length, mtu, at + size);
      assert (done + [Cut(at, size)])[..|done|] == done;
      CutFromTiles(done + [Cut(at, size)], length, mtu, at + size);
      assert CutFrom(length, mtu, at) == [Cut(at, size)] + rest;
      assert done + ([Cut(at, size)] + rest) == done + [Cut(at, size)] + rest;
    } else {
      assert done + CutFrom(length, mtu, at) == done;
    }
  }

  /** A message cut for an mtu. */
  function CutMessage(message: Bytes, mtu: nat): (source: Source)
    requires |message| % 4 == 0 && 12 <= |message| && |message| + PACKET_OVERHEAD < 0x1_0000 && mtu >= MINIMUM_MTU
    ensures WellCut(source)
  {
    CutFromTiles([], |message|, mtu, 0);
    assert [] + CutFrom(|message|, mtu, 0) == CutFrom(|message|, mtu, 0);
    Source(message, CutFrom(|message|, mtu, 0))
  }

  function FragmentsOf(id: uint16, source: Source): seq<Fragment>
    requires WellCut(source)
  {
    seq(|source.cuts|, k requires 0 <= k < |source.cuts| => FragmentOf(id, source, k))
  }

  /** The fragments made when the loop has reached at. */
  ghost predicate CutSoFar(id: uint16, source: Source, mtu: nat, fragments: seq<Fragment>, at: nat)
    requires WellCut(source) && mtu >= MINIMUM_MTU
  {
    && |fragments| <= |source.cuts| && at <= |source.message|
    && source.cuts[|fragments|..] == CutFrom(|source.message|, mtu, at)
    && forall k :: 0 <= k < |fragments| ==> fragments[k] == FragmentOf(id, source, k)
  }

  lemma NextFragment(id: uint16, source: Source, mtu: nat, fragments: seq<Fragment>, at: nat, size: nat)
    requires WellCut(source) && mtu >= MINIMUM_MTU && CutSoFar(id, source, mtu, fragments, at) && at < |source.message|
    requires size == if |source.message| - at < mtu - FRAGMENTEDPACKET_OVERHEAD then |source.message| - at
                     else mtu - FRAGMENTEDPACKET_OVERHEAD
    ensures CutSoFar(id, source, mtu, fragments + [Fragment(id, |source.message| / 4, at / 4, size / 4,
                                                           source.message[at..at + size])], at + size)
  {
    var n := |fragments|;
    assert source.cuts[n] == source.cuts[n..][0] == Cut(at, size);
    assert source.cuts[n + 1..] == source.cuts[n..][1..];
  }

  predicate NeedsCutting(message: Bytes, mtu: nat) {
    mtu < |message| + PACKET_OVERHEAD
  }

  /** The loop that cuts a message. */
  method CutIntoFragments(id: uint16, message: Bytes, mtu: nat) returns (fragments: seq<Fragment>)
    requires |message| % 4 == 0 && 12 <= |message| && |message| + PACKET_OVERHEAD < 0x1_0000 && mtu >= MINIMUM_MTU
    ensures fragments == FragmentsOf(id, CutMessage(message, mtu))
  {
    fragments := [];
    ghost var source := CutMessage(message, mtu);
    var offset := 0;
    while offset < |message|
      invariant offset <= |message| && CutSoFar(id, source, mtu, fragments, offset)
    {
      var fragmentSize: nat;
      if |message| - offset < mtu - FRAGMENTEDPACKET_OVERHEAD {
        fragmentSize := |message| - offset;
      } else {
        fragmentSize := mtu - FRAGMENTEDPACKET_OVERHEAD;
      }
      NextFragment(id, source, mtu, fragments, offset, fragmentSize);
      fragments := fragments + [Fragment(id, |message| / 4, offset / 4, fragmentSize / 4,
                                         message[offset..offset + fragmentSize])];
      offset := offset + fragmentSize;
    }
  }

  /** The part of the channel that numbers messages sent in fragments. */
  class Fragmenter {
    var selfMessageSequenceNumber: uint16

    constructor (start: uint16)
      ensures selfMessageSequenceNumber == start
    {
      selfMessageSequenceNumber := start;
    }

    /** The end of bzrtp_packetBuild: no fragment when the packet fits the mtu. */
    method Build(message: Bytes, mtu: nat) returns (fragments: seq<Fragment>)
      requires |message| % 4 == 0 && 12 <= |message| && |message| + PACKET_OVERHEAD < 0x1_0000 && mtu >= MINIMUM_MTU
      modifies this
      ensures !NeedsCutting(message, mtu) ==> fragments == [] && selfMessageSequenceNumber == old(selfMessageSequenceNumber)
      ensures NeedsCutting(message, mtu) ==>
                && fragments == FragmentsOf(old(selfMessageSequenceNumber), CutMessage(message, mtu))
                && selfMessageSequenceNumber == (old(selfMessageSequenceNumber) + 1) % 0x1_0000
    {
      fragments := [];
      if mtu < |message| + PACKET_OVERHEAD {
        fragments := CutIntoFragments(selfMessageSequenceNumber, message, mtu);
        selfMessageSequenceNumber := (selfMessageSequenceNumber + 1) % 0x1_0000;
      }
    }
  }
}
