/** What the receiver of src/packetParser.c makes of fragments in whatever order
    they arrive, and which messages survive being cut. */
module Reassembly {
  import opened Octets
  import opened Fragments

  /** The messages under way, by message id. */
  type Network = map<uint16, Source>

  ghost predicate Underway(net: Network) {
    forall id :: id in net ==> id >= 1 && WellCut(net[id])
  }

  /** One fragment delivered; blank is what malloc would return. */
  datatype Arrival = Arrival(id: uint16, piece: nat, blank: Bytes)

  predicate Possible(net: Network, a: Arrival) {
    && a.id in net && a.piece < |net[a.id].cuts|
    && |a.blank| == PACKET_OVERHEAD + 4 * (|net[a.id].message| / 4)
  }

  predicate AllPossible(net: Network, arrivals: seq<Arrival>) {
    forall j :: 0 <= j < |arrivals| ==> Possible(net, arrivals[j])
  }

  // ---------------------------------------------------------------------
  // The list the receiver keeps

  function InfoOf(cut: Cut): Info {
    Info(cut.at / 4, cut.size / 4)
  }

  /** The entries of some pieces, in the order of the message. */
  function Selected(cuts: seq<Cut>, pieces: set<nat>): seq<Info> {
    if cuts == [] then []
    else
      var n := |cuts| - 1;
      Selected(cuts[..n], pieces) + if n in pieces then [InfoOf(cuts[n])] else []
  }

  lemma {:induction false} SelectedDependsOn(cuts: seq<Cut>, a: set<nat>, b: set<nat>)
    requires forall k :: 0 <= k < |cuts| ==> (k in a <==> k in b)
    ensures Selected(cuts, a) == Selected(cuts, b)
  {
    if cuts != [] {
      SelectedDependsOn(cuts[..|cuts| - 1], a, b);
    }
  }

  lemma {:induction false} SelectedBelow(cuts: seq<Cut>, end: nat, pieces: set<nat>, bound: nat)
    requires Tiles(cuts, end) && forall j :: 0 <= j < |cuts| ==> cuts[j].at / 4 < bound
    ensures forall j :: 0 <= j < |Selected(cuts, pieces)| ==> Selected(cuts, pieces)[j].offset < bound
  {
    if cuts != [] {
      SelectedBelow(cuts[..|cuts| - 1], cuts[|cuts| - 1].at, pieces, bound);
    }
  }

  /** Pieces before the last start in an earlier word than the last. */
  lemma FrontBelowLast(cuts: seq<Cut>, end: nat, pieces: set<nat>)
    requires Tiles(cuts, end) && cuts != []
    ensures var n := |cuts| - 1;
            forall j :: 0 <= j < |Selected(cuts[..n], pieces)| ==> Selected(cuts[..n], pieces)[j].offset < cuts[n].at / 4
    ensures forall j :: 0 <= j < |cuts| - 1 ==> cuts[j].at / 4 < cuts[|cuts| - 1].at / 4
  {
    var n := |cuts| - 1;
    forall j | 0 <= j < n ensures cuts[j].at / 4 < cuts[n].at / 4 {
      CutsAreInside(cuts, end, j);
    }
    SelectedBelow(cuts[..n], cuts[n].at, pieces, cuts[n].at / 4);
  }

  lemma {:induction false} SelectedIsSorted(cuts: seq<Cut>, end: nat, pieces: set<nat>)
    requires Tiles(cuts, end)
    ensures forall i, j :: 0 <= i < j < |Selected(cuts, pieces)| ==>
                             Selected(cuts, pieces)[i].offset < Selected(cuts, pieces)[j].offset
  {
    if cuts != [] {
      SelectedIsSorted(cuts[..|cuts| - 1], cuts[|cuts| - 1].at, pieces);
      FrontBelowLast(cuts, end, pieces);
    }
  }

  lemma {:induction false} PlaceBeforeLast(infos: seq<Info>, last: Info, offset: nat)
    requires offset < last.offset
    ensures Place(infos + [last], offset) == Place(infos, offset)
    ensures Present(infos + [last], offset) == Present(infos, offset)
  {
    if infos != [] && infos[0].offset < offset {
      PlaceBeforeLast(infos[1..], last, offset);
      assert (infos + [last])[1..] == infos[1..] + [last];
    }
  }

  lemma InsertBeforeLast(infos: seq<Info>, last: Info, info: Info)
    requires info.offset < last.offset
    ensures Insert(infos + [last], info) == Insert(infos, info) + [last]
  {
    PlaceBeforeLast(infos, last, info.offset);
    var k := Place(infos, info.offset);
    assert (infos + [last])[..k] == infos[..k] && (infos + [last])[k..] == infos[k..] + [last];
  }

  lemma InsertAtEnd(front: seq<Info>, info: Info)
    requires forall j :: 0 <= j < |front| ==> front[j].offset < info.offset
    ensures !Present(front, info.offset) && Insert(front, info) == front + [info]
    ensures Present(front + [info], info.offset) && Insert(front + [info], info) == front + [info]
  {
    var k := Place(front, info.offset);
    assert k == |front|;
    assert front[..k] + [info] + front[k..] == front + [info];
    assert forall j :: 0 <= j < |front| ==> (front + [info])[j] == front[j];
    assert (front + [info])[|front|] == info;
    assert Place(front + [info], info.offset) == |front|;
  }

  lemma SelectedSplits(cuts: seq<Cut>, pieces: set<nat>)
    requires cuts != []
    ensures var n := |cuts| - 1;
            Selected(cuts, pieces) == if n in pieces then Selected(cuts[..n], pieces) + [InfoOf(cuts[n])]
                                      else Selected(cuts[..n], pieces)
  {
  }

  /** The receiver's insertion keeps the list that of the pieces received, and the
      list tells whether a piece is there already. */
  lemma {:induction false} InsertSelected(cuts: seq<Cut>, end: nat, pieces: set<nat>, k: nat)
    requires Tiles(cuts, end) && k < |cuts|
    ensures Present(Selected(cuts, pieces), cuts[k].at / 4) <==> k in pieces
    ensures Insert(Selected(cuts, pieces), InfoOf(cuts[k])) == Selected(cuts, pieces + {k})
  {
    var n := |cuts| - 1;
    var front := Selected(cuts[..n], pieces);
    FrontBelowLast(cuts, end, pieces);
    SelectedSplits(cuts, pieces);
    SelectedSplits(cuts, pieces + {k});
    if k == n {
      SelectedDependsOn(cuts[..n], pieces, pieces + {k});
      InsertAtEnd(front, InfoOf(cuts[n]));
    } else {
      InsertSelected(cuts[..n], cuts[n].at, pieces, k);
      if n in pieces {
        InsertBeforeLast(front, InfoOf(cuts[n]), InfoOf(cuts[k]));
        PlaceBeforeLast(front, InfoOf(cuts[n]), cuts[k].at / 4);
      }
    }
  }

  ghost predicate Complete(cuts: seq<Cut>, pieces: set<nat>) {
    forall k :: 0 <= k < |cuts| ==> k in pieces && cuts[k].size % 4 == 0
  }

  lemma CompleteSplits(cuts: seq<Cut>, pieces: set<nat>)
    requires cuts != []
    ensures var n := |cuts| - 1;
            Complete(cuts, pieces) <==> Complete(cuts[..n], pieces) && n in pieces && cuts[n].size % 4 == 0
  {
    var n := |cuts| - 1;
    if Complete(cuts[..n], pieces) && n in pieces && cuts[n].size % 4 == 0 {
      forall k | 0 <= k < |cuts| ensures k in pieces && cuts[k].size % 4 == 0 {
        assert k < n ==> cuts[..n][k] == cuts[k];
      }
    }
  }

  lemma SumOfLast(front: seq<Info>, info: Info)
    ensures SumLengths(front + [info]) == SumLengths(front) + info.length
  {
    assert (front + [info])[..|front|] == front;
  }

  /** The lengths in words add up to the message exactly when every piece is there
      and none lost part of a word. */
  lemma {:induction false} SumIsTotalIff(cuts: seq<Cut>, end: nat, pieces: set<nat>)
    requires Tiles(cuts, end)
    ensures 4 * SumLengths(Selected(cuts, pieces)) <= end
    ensures 4 * SumLengths(Selected(cuts, pieces)) == end <==> Complete(cuts, pieces)
  {
    if cuts != [] {
      var n := |cuts| - 1;
      SumIsTotalIff(cuts[..n], cuts[n].at, pieces);
      CompleteSplits(cuts, pieces);
      SelectedSplits(cuts, pieces);
      SumOfLast(Selected(cuts[..n], pieces), InfoOf(cuts[n]));
    }
  }

  // ---------------------------------------------------------------------
  // The receiver's state

  /** Which pieces of which message the receiver has in hand; id 0 for none. */
  datatype Collection = Collection(id: uint16, pieces: set<nat>)

  predicate Aligned(source: Source) {
    forall k :: 0 <= k < |source.cuts| ==> source.cuts[k].size % 4 == 0
  }

  /** The buffer holds a piece of the message at its place. */
  ghost predicate Holds(packet: Bytes, source: Source, k: nat)
    requires k < |source.cuts|
  {
    var cut := source.cuts[k];
    && cut.at + cut.size <= |source.message| <= |packet| - PACKET_HEADER_LENGTH
    && forall b :: cut.at <= b < cut.at + cut.size ==> packet[PACKET_HEADER_LENGTH + b] == source.message[b]
  }

  ghost predicate Collects(s: Assembly, source: Source, pieces: set<nat>) {
    && s.total == |source.message| / 4 && |s.packet| == PACKET_OVERHEAD + 4 * s.total
    && s.infos == Selected(source.cuts, pieces)
    && (forall k :: k in pieces ==> k < |source.cuts|)
    && (Aligned(source) ==> forall k :: k in pieces ==> Holds(s.packet, source, k))
  }

  ghost predicate Tracks(net: Network, s: Assembly, c: Collection) {
    && s.id == c.id
    && (c.id >= 1 ==> c.id in net && Collects(s, net[c.id], c.pieces))
  }

  lemma {:induction false} AlignedStarts(cuts: seq<Cut>, end: nat, k: nat)
    requires Tiles(cuts, end) && end % 4 == 0 && k < |cuts|
    requires forall j :: 0 <= j < |cuts| ==> cuts[j].size % 4 == 0
    ensures cuts[k].at % 4 == 0
  {
    if k < |cuts| - 1 {
      AlignedStarts(cuts[..|cuts| - 1], cuts[|cuts| - 1].at, k);
    }
  }

  /** Storing a fragment of the message in hand. */
  lemma StoreCollects(s: Assembly, id: uint16, source: Source, pieces: set<nat>, k: nat)
    requires WellCut(source) && Collects(s, source, pieces) && k < |source.cuts|
    ensures Collects(Stored(s, FragmentOf(id, source, k)), source, pieces + {k})
  {
    var f := FragmentOf(id, source, k);
    InsertSelected(source.cuts, |source.message|, pieces, k);
    if Aligned(source) {
      AlignedStarts(source.cuts, |source.message|, k);
      StoreHolds(s, id, source, pieces, k);
    }
  }

  lemma OverlayHolds(packet: Bytes, source: Source, j: nat, k: nat)
    requires j < |source.cuts| && k < |source.cuts|
    requires source.cuts[k].at + source.cuts[k].size <= |source.message| <= |packet| - PACKET_HEADER_LENGTH
    requires j != k ==> Holds(packet, source, j)
    ensures var cut := source.cuts[k];
            Holds(Overlay(packet, PACKET_HEADER_LENGTH + cut.at, source.message[cut.at..cut.at + cut.size]), source, j)
  {
  }

  lemma StoredPacket(s: Assembly, id: uint16, source: Source, k: nat)
    requires WellCut(source) && k < |source.cuts| && source.cuts[k].at % 4 == 0
    requires s.total == |source.message| / 4 && |s.packet| == PACKET_OVERHEAD + 4 * s.total
    ensures var cut := source.cuts[k];
            && cut.at + cut.size <= |source.message|
            && Stored(s, FragmentOf(id, source, k)).packet ==
               if Present(s.infos, cut.at / 4) then s.packet
               else Overlay(s.packet, PACKET_HEADER_LENGTH + cut.at, source.message[cut.at..cut.at + cut.size])
  {
    CutsAreInside(source.cuts, |source.message|, k);
  }

  lemma StoreHolds(s: Assembly, id: uint16, source: Source, pieces: set<nat>, k: nat)
    requires WellCut(source) && Collects(s, source, pieces) && k < |source.cuts| && Aligned(source)
    requires source.cuts[k].at % 4 == 0
    requires Present(s.infos, source.cuts[k].at / 4) <==> k in pieces
    ensures forall j :: j in pieces + {k} ==> Holds(Stored(s, FragmentOf(id, source, k)).packet, source, j)
  {
    StoredPacket(s, id, source, k);
    forall j | j in pieces + {k} ensures Holds(Stored(s, FragmentOf(id, source, k)).packet, source, j) {
      if k !in pieces {
        OverlayHolds(s.packet, source, j, k);
      }
    }
  }

  /** The message in the buffer once every piece is there. */
  lemma {:induction false} PiecesCover(cuts: seq<Cut>, end: nat, b: nat) returns (k: nat)
    requires Tiles(cuts, end) && b < end
    ensures k < |cuts| && cuts[k].at <= b < cuts[k].at + cuts[k].size
  {
    k := |cuts| - 1;
    if b < cuts[k].at {
      k := PiecesCover(cuts[..k], cuts[k].at, b);
    }
  }

  lemma CompleteHolds(s: Assembly, source: Source, pieces: set<nat>)
    requires WellCut(source) && Collects(s, source, pieces) && Complete(source.cuts, pieces)
    ensures |s.packet| == PACKET_OVERHEAD + |source.message|
    ensures s.packet[PACKET_HEADER_LENGTH..PACKET_HEADER_LENGTH + |source.message|] == source.message
  {
    assert Aligned(source);
    forall b | 0 <= b < |source.message| ensures s.packet[PACKET_HEADER_LENGTH + b] == source.message[b] {
      var k := PiecesCover(source.cuts, |source.message|, b);
      assert Holds(s.packet, source, k);
    }
  }

  // ---------------------------------------------------------------------
  // One arrival

  function Delivered(net: Network, a: Arrival): Fragment
    requires a.id in net && WellCut(net[a.id]) && a.piece < |net[a.id].cuts|
  {
    FragmentOf(a.id, net[a.id], a.piece)
  }

  predicate SizeAccepted(cut: Cut) {
    MIN_PACKET_LENGTH <= FRAGMENTEDPACKET_OVERHEAD + cut.size <= MAX_PACKET_LENGTH
  }

  /** What the receiver has in hand after one more arrival. */
  ghost function Advance(net: Network, c: Collection, a: Arrival): Collection
    requires Possible(net, a)
  {
    var cuts := net[a.id].cuts;
    if !SizeAccepted(cuts[a.piece]) || c.id > a.id then c
    else
      var pieces := (if c.id < a.id then {} else c.pieces) + {a.piece};
      if Complete(cuts, pieces) then Collection(0, {}) else Collection(a.id, pieces)
  }

  /** A packet that carries a message. */
  predicate Carries(packet: Bytes, message: Bytes) {
    && |packet| == PACKET_OVERHEAD + |message|
    && packet[PACKET_HEADER_LENGTH..PACKET_HEADER_LENGTH + |message|] == message
  }

  ghost predicate Answers(net: Network, c: Collection, a: Arrival, reply: Reply)
    requires Possible(net, a)
  {
    var cuts := net[a.id].cuts;
    if !SizeAccepted(cuts[a.piece]) then reply == InvalidPacket
    else if c.id > a.id then reply == OutOfOrder
    else if Complete(cuts, (if c.id < a.id then {} else c.pieces) + {a.piece}) then
      reply.Packet? && Carries(reply.packet, net[a.id].message)
    else reply == PacketFragment
  }

  lemma CompletedTracks(net: Network, s: Assembly, a: Arrival, pieces: set<nat>)
    requires Underway(net) && Possible(net, a) && s.id == a.id && Collects(s, net[a.id], pieces)
    ensures var (next, reply) := Completed(s, Delivered(net, a));
            var complete := Complete(net[a.id].cuts, pieces);
            && Tracks(net, next, if complete then Collection(0, {}) else Collection(a.id, pieces))
            && (if complete then reply.Packet? && Carries(reply.packet, net[a.id].message) else reply == PacketFragment)
  {
    var source := net[a.id];
    SumIsTotalIff(source.cuts, |source.message|, pieces);
    if Complete(source.cuts, pieces) {
      CompleteHolds(s, source, pieces);
    }
  }

  lemma OpenedCollects(net: Network, s: Assembly, c: Collection, a: Arrival)
    requires Underway(net) && Possible(net, a) && Tracks(net, s, c) && c.id <= a.id
    ensures Collects(Opened(s, Delivered(net, a), a.blank), net[a.id], if c.id < a.id then {} else c.pieces)
    ensures Opened(s, Delivered(net, a), a.blank).id == a.id
  {
    if c.id < a.id {
      NothingSelected(net[a.id].cuts);
    }
  }

  lemma {:induction false} NothingSelected(cuts: seq<Cut>)
    ensures Selected(cuts, {}) == []
  {
    if cuts != [] {
      NothingSelected(cuts[..|cuts| - 1]);
    }
  }

  /** The receiver's list and buffer follow the set of pieces received. */
  lemma StepTracks(net: Network, s: Assembly, c: Collection, a: Arrival)
    requires Underway(net) && Possible(net, a) && Tracks(net, s, c)
    ensures Storable(s, Delivered(net, a))
    ensures var (next, reply) := Step(s, Delivered(net, a), a.blank);
            Tracks(net, next, Advance(net, c, a)) && Answers(net, c, a, reply)
  {
    var f := Delivered(net, a);
    if LengthAccepted(f) && c.id <= a.id {
      var current := Opened(s, f, a.blank);
      var pieces: set<nat> := if c.id < a.id then {} else c.pieces;
      OpenedCollects(net, s, c, a);
      StoreCollects(current, a.id, net[a.id], pieces, a.piece);
      CompletedTracks(net, Stored(current, f), a, pieces + {a.piece});
    }
  }

  // ---------------------------------------------------------------------
  // Runs

  const IDLE := Collection(0, {})

  ghost function Collected(net: Network, arrivals: seq<Arrival>): (c: Collection)
    requires AllPossible(net, arrivals)
  {
    if arrivals == [] then IDLE
    else Advance(net, Collected(net, arrivals[..|arrivals| - 1]), arrivals[|arrivals| - 1])
  }

  /** The receiver after a run, from the state a channel starts in. */
  ghost function After(net: Network, arrivals: seq<Arrival>): (s: Assembly)
    requires Underway(net) && AllPossible(net, arrivals)
    ensures Tracks(net, s, Collected(net, arrivals))
  {
    if arrivals == [] then Assembly(0, 0, [], [])
    else
      var front, a := arrivals[..|arrivals| - 1], arrivals[|arrivals| - 1];
      StepTracks(net, After(net, front), Collected(net, front), a);
      Step(After(net, front), Delivered(net, a), a.blank).0
  }

  /** What the receiver answers to the last arrival. */
  ghost function LastReply(net: Network, arrivals: seq<Arrival>): (reply: Reply)
    requires Underway(net) && AllPossible(net, arrivals) && arrivals != []
    ensures Answers(net, Collected(net, arrivals[..|arrivals| - 1]), arrivals[|arrivals| - 1], reply)
  {
    var front, a := arrivals[..|arrivals| - 1], arrivals[|arrivals| - 1];
    StepTracks(net, After(net, front), Collected(net, front), a);
    Step(After(net, front), Delivered(net, a), a.blank).1
  }

  /** The pieces of one message that arrived. */
  function Seen(arrivals: seq<Arrival>, id: uint16): set<nat> {
    if arrivals == [] then {}
    else
      var a := arrivals[|arrivals| - 1];
      Seen(arrivals[..|arrivals| - 1], id) + if a.id == id then {a.piece} else {}
  }

  /** Only pieces that arrived, in packets of an accepted size, are in hand. */
  lemma {:induction false} InHandWasSeen(net: Network, arrivals: seq<Arrival>)
    requires Underway(net) && AllPossible(net, arrivals)
    ensures var c := Collected(net, arrivals);
            c.id >= 1 ==> c.pieces <= Seen(arrivals, c.id)
    ensures var c := Collected(net, arrivals);
            c.id >= 1 ==> c.id in net && forall k :: k in c.pieces ==> k < |net[c.id].cuts| && SizeAccepted(net[c.id].cuts[k])
  {
    if arrivals != [] {
      InHandWasSeen(net, arrivals[..|arrivals| - 1]);
    }
  }

  /** Any run over any messages: a packet handed on carries, octet for octet, the
      message its last fragment belongs to, all of whose pieces arrived, in packets
      of accepted sizes, and lost no part of a word. */
  lemma MessagesAreNeverMixed(net: Network, arrivals: seq<Arrival>)
    requires Underway(net) && AllPossible(net, arrivals) && arrivals != []
    requires LastReply(net, arrivals).Packet?
    ensures var id := arrivals[|arrivals| - 1].id;
            && Carries(LastReply(net, arrivals).packet, net[id].message)
            && Complete(net[id].cuts, Seen(arrivals, id))
            && forall k :: 0 <= k < |net[id].cuts| ==> SizeAccepted(net[id].cuts[k])
  {
    var front, a := arrivals[..|arrivals| - 1], arrivals[|arrivals| - 1];
    InHandWasSeen(net, front);
    var c := Collected(net, front);
    var pieces: set<nat> := (if c.id < a.id then {} else c.pieces) + {a.piece};
    assert Complete(net[a.id].cuts, pieces);
    forall k | 0 <= k < |net[a.id].cuts|
      ensures k in Seen(arrivals, a.id) && net[a.id].cuts[k].size % 4 == 0 && SizeAccepted(net[a.id].cuts[k])
    {
      assert k in pieces;
    }
  }

  /** Any run: while a message is in hand the list is strictly sorted by offset and
      is that of pieces of this one message that arrived, and the buffer agrees with
      the message on each of them. */
  lemma ListAndBufferFollowTheMessage(net: Network, arrivals: seq<Arrival>)
    requires Underway(net) && AllPossible(net, arrivals)
    requires After(net, arrivals).id >= 1
    ensures var s, c := After(net, arrivals), Collected(net, arrivals);
            && s.id in net && c.pieces <= Seen(arrivals, s.id)
            && s.infos == Selected(net[s.id].cuts, c.pieces)
            && (forall i, j :: 0 <= i < j < |s.infos| ==> s.infos[i].offset < s.infos[j].offset)
            && 4 * SumLengths(s.infos) <= |net[s.id].message|
            && (forall k :: k in c.pieces ==> k < |net[s.id].cuts|)
            && (Aligned(net[s.id]) ==> forall k :: k in c.pieces ==> Holds(s.packet, net[s.id], k))
  {
    var c := Collected(net, arrivals);
    InHandWasSeen(net, arrivals);
    SelectedIsSorted(net[c.id].cuts, |net[c.id].message|, c.pieces);
    SumIsTotalIff(net[c.id].cuts, |net[c.id].message|, c.pieces);
  }

  ghost predicate NoneNewer(arrivals: seq<Arrival>, id: uint16) {
    forall j :: 0 <= j < |arrivals| ==> arrivals[j].id <= id
  }

  predicate SizesAccepted(source: Source) {
    forall k :: 0 <= k < |source.cuts| ==> SizeAccepted(source.cuts[k])
  }

  /** Until it is complete, the newest message is in hand with all that arrived
      of it. */
  lemma {:induction false} NewestIsInHand(net: Network, arrivals: seq<Arrival>, id: uint16)
    requires Underway(net) && AllPossible(net, arrivals) && NoneNewer(arrivals, id)
    requires id in net && SizesAccepted(net[id]) && !Complete(net[id].cuts, Seen(arrivals, id))
    ensures if Seen(arrivals, id) == {} then Collected(net, arrivals).id < id
            else Collected(net, arrivals) == Collection(id, Seen(arrivals, id))
  {
    if arrivals != [] {
      var front, a := arrivals[..|arrivals| - 1], arrivals[|arrivals| - 1];
      assert !Complete(net[id].cuts, Seen(front, id)) by {
        if Complete(net[id].cuts, Seen(front, id)) {
          CompleteIsMonotone(net[id].cuts, Seen(front, id), Seen(arrivals, id));
        }
      }
      NewestIsInHand(net, front, id);
      assert a.id == id ==> {a.piece} + Seen(front, id) == Seen(arrivals, id);
    }
  }

  lemma CompleteIsMonotone(cuts: seq<Cut>, a: set<nat>, b: set<nat>)
    requires Complete(cuts, a) && a <= b
    ensures Complete(cuts, b)
  {
  }

  /** Any order, any duplicates, any older messages in between: a message answers
      with "fragment" until its last distinct piece arrives, and that arrival
      yields the message, octet for octet. */
  lemma CompletesWithItsLastPiece(net: Network, arrivals: seq<Arrival>, id: uint16)
    requires Underway(net) && AllPossible(net, arrivals) && NoneNewer(arrivals, id)
    requires id in net && SizesAccepted(net[id])
    requires arrivals != [] && arrivals[|arrivals| - 1].id == id
    requires !Complete(net[id].cuts, Seen(arrivals[..|arrivals| - 1], id))
    ensures if Complete(net[id].cuts, Seen(arrivals, id)) then
              LastReply(net, arrivals).Packet? && Carries(LastReply(net, arrivals).packet, net[id].message)
            else LastReply(net, arrivals) == PacketFragment
  {
    var front, a := arrivals[..|arrivals| - 1], arrivals[|arrivals| - 1];
    NewestIsInHand(net, front, id);
    var c := Collected(net, front);
    assert (if c.id < id then {} else c.pieces) + {a.piece} == Seen(arrivals, id);
  }

  // ---------------------------------------------------------------------
  // Which MTU a message survives

  /** All pieces but the last fill the mtu. */
  lemma {:induction false} PieceSizes(length: nat, mtu: nat, at: nat, k: nat)
    requires mtu >= MINIMUM_MTU && k < |CutFrom(length, mtu, at)|
    ensures var cut, room := CutFrom(length, mtu, at)[k], mtu - FRAGMENTEDPACKET_OVERHEAD;
            && cut.at < length
            && cut.size == (if length - cut.at < room then length - cut.at else room)
            && (mtu % 4 == 0 && at % 4 == 0 ==> cut.at % 4 == 0)
    decreases k
  {
    if k > 0 {
      assert length - at >= mtu - FRAGMENTEDPACKET_OVERHEAD;
      PieceSizes(length, mtu, at + (mtu - FRAGMENTEDPACKET_OVERHEAD), k - 1);
    }
  }

  lemma PieceIsClean(length: nat, mtu: nat, k: nat)
    requires length % 4 == 0 && mtu >= MINIMUM_MTU && mtu % 4 == 0 && mtu <= MAX_PACKET_LENGTH && k < |CutFrom(length, mtu, 0)|
    ensures CutFrom(length, mtu, 0)[k].size % 4 == 0 && SizeAccepted(CutFrom(length, mtu, 0)[k])
  {
    PieceSizes(length, mtu, 0, k);
    WholeWordsLeft(length, CutFrom(length, mtu, 0)[k].at, mtu - FRAGMENTEDPACKET_OVERHEAD);
  }

  lemma WholeWordsLeft(length: nat, at: nat, room: nat)
    requires length % 4 == 0 && at % 4 == 0 && room % 4 == 0 && at < length && 4 <= room
    ensures var size := if length - at < room then length - at else room;
            4 <= size <= room && size % 4 == 0
  {
  }

  lemma FirstPiece(length: nat, mtu: nat)
    requires mtu >= MINIMUM_MTU && mtu < length + PACKET_OVERHEAD
    ensures |CutFrom(length, mtu, 0)| > 0 && CutFrom(length, mtu, 0)[0].size == mtu - FRAGMENTEDPACKET_OVERHEAD
  {
  }

  /** The pieces of a message that has to be cut are all in whole words and of
      accepted sizes exactly when the mtu is a multiple of four and no longer than
      the longest packet. */
  lemma CutIsCleanIff(message: Bytes, mtu: nat)
    requires |message| % 4 == 0 && 12 <= |message| && |message| + PACKET_OVERHEAD < 0x1_0000 && mtu >= MINIMUM_MTU
    requires NeedsCutting(message, mtu)
    ensures Aligned(CutMessage(message, mtu)) && SizesAccepted(CutMessage(message, mtu))
            <==> mtu % 4 == 0 && mtu <= MAX_PACKET_LENGTH
  {
    var source := CutMessage(message, mtu);
    FirstPiece(|message|, mtu);
    if mtu % 4 == 0 && mtu <= MAX_PACKET_LENGTH {
      forall k | 0 <= k < |source.cuts| ensures source.cuts[k].size % 4 == 0 && SizeAccepted(source.cuts[k]) {
        PieceIsClean(|message|, mtu, k);
      }
    } else {
      assert !(source.cuts[0].size % 4 == 0 && SizeAccepted(source.cuts[0]));
    }
  }

  predicate AllThere(source: Source, pieces: set<nat>) {
    forall k :: 0 <= k < |source.cuts| ==> k in pieces
  }

  lemma CompleteIff(source: Source, pieces: set<nat>)
    ensures Complete(source.cuts, pieces) <==> Aligned(source) && AllThere(source, pieces)
  {
  }

  /** A message that has to be cut for an mtu. In a run where all its pieces have
      arrived, with the newest message's last piece last, it is recovered exactly
      when the mtu is a multiple of four not above the longest packet accepted; with
      any other mtu, bzrtp_set_MTU accepts it and no run ever recovers a message. */
  lemma CutMessageSurvivesIff(net: Network, arrivals: seq<Arrival>, id: uint16, message: Bytes, mtu: nat)
    requires |message| % 4 == 0 && 12 <= |message| && |message| + PACKET_OVERHEAD < 0x1_0000 && mtu >= MINIMUM_MTU
    requires NeedsCutting(message, mtu)
    requires Underway(net) && AllPossible(net, arrivals) && id in net && net[id] == CutMessage(message, mtu)
    requires arrivals != [] && arrivals[|arrivals| - 1].id == id
    ensures !(mtu % 4 == 0 && mtu <= MAX_PACKET_LENGTH) ==> !LastReply(net, arrivals).Packet?
    ensures
      && NoneNewer(arrivals, id)
      && AllThere(net[id], Seen(arrivals, id)) && !AllThere(net[id], Seen(arrivals[..|arrivals| - 1], id))
      ==> (LastReply(net, arrivals).Packet? <==> mtu % 4 == 0 && mtu <= MAX_PACKET_LENGTH)
    ensures LastReply(net, arrivals).Packet? ==> Carries(LastReply(net, arrivals).packet, message)
  {
    CutIsCleanIff(message, mtu);
    CompleteIff(net[id], Seen(arrivals, id));
    CompleteIff(net[id], Seen(arrivals[..|arrivals| - 1], id));
    if LastReply(net, arrivals).Packet? {
      MessagesAreNeverMixed(net, arrivals);
    } else if NoneNewer(arrivals, id) && SizesAccepted(net[id]) && !Complete(net[id].cuts, Seen(arrivals[..|arrivals| - 1], id)) {
      CompletesWithItsLastPiece(net, arrivals, id);
    }
  }
}
