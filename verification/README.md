# Verification of bzrtp

bzrtp is an implementation in C of ZRTP (RFC 6189), the protocol by which two ends
of a call agree on SRTP keys over the media path. This project models the parts
that have to be right for both ends to come out with the same keys, and proves
what they promise.

`dafny verify dfyconfig.toml` checks everything.

## How the model is laid out

- `Octets`, `Layout`: octet strings, `memcmp`, network-order integers, fields one
  after the other, the four-character names of algorithms.
- `Bitmask`, `Negotiation`, `Agreement`: the bit set behind the algorithm lists
  under the macro expansion actually written, the in-place loops on the lists, and
  the choice of the five algorithms of a session.
- `RetainedSecrets`: which cached secret each end recognises, what it then writes in
  its cache, and sequences of calls in which the last acknowledgement may be lost.
- `Messages`, `Protocol`: one end of a channel as functions from a state and a
  message or a timer tick to a state, the messages sent and the code returned.
  What the C code keeps behind pointers is an `Option`, and following a NULL pointer
  is the outcome `Fault`. `Channel` is the same state machine as a class whose
  fields the state functions update in place, each method proved equal to its
  function.
- `Exchange`, `Transitions`, `Runs`, `TwoEnds`, `SafeRuns`: two honest ends over a
  network that loses, repeats and reorders. `Exchange` computes from the two
  configurations alone the messages and keys of the exchange; the invariant of
  `TwoEnds` says where each end is in it; `SafeRuns` holds the theorems on safety.
- `TimedEnds`, `InOrder`, `Progress`, `TimedRuns`: the same two ends with the timers
  of `Timer`, which give up, and the check of sequence numbers, which drops what
  arrives out of order. Their runs are runs of `TwoEnds`, so what holds of those
  holds of them; `TimedRuns` says exactly when the two ends can still be secured.
  `FirstChannels` is about the multistream mode agreed on a first channel, and
  `SampleEnds` holds ends that meet every hypothesis.
- `Authenticity`: one end against arbitrary messages.
- `Crc32`, `Codec`, `PacketStrings`, `OnTheWire`: the checksum, the layouts, the
  builder and parser with their advancing pointers, and the proof that the messages
  of every run survive the wire.
- `Fragments`, `Reassembly`: cutting a message for an MTU, and what the receiver
  makes of fragments in any order.
- `Timer`: retransmission. `ZidCache`: the tables of the cache.
- `GoClear`, `TimedGoClear`: leaving secure mode, with the session key ratchet, first
  over a network that repeats and reorders at will, then with the timers and the
  check of sequence numbers of each channel.

SHA-256, HMAC, the key derivation function, Diffie-Hellman, KEMs and ciphers are
fields of the record `Messages.Crypto`. What is asked of them is
`SafeRuns.PrimitivesWork`: Diffie-Hellman results commute, decapsulation undoes
encapsulation, decryption undoes encryption, values have their lengths; and the
identifiers of different secrets do not collide.

## What came out

The main results hold for every run, every input or every sequence of operations.
Where the code does not do what one would expect, the exact condition is proved:

- Fragment offsets and lengths are sent in words of four octets, but
  `bzrtp_set_MTU` takes any size. A message that has to be cut is recovered if and
  only if the MTU is a multiple of four and at most 3072
  (`Reassembly.CutMessageSurvivesIff`).
- Two calls in a row whose Conf2ACK is lost may lose the common secret; one such
  call keeps it if and only if the responder recognised it as its own rs1
  (`RetainedSecrets.HalfSessionKeepsTheSecretIff`). Over whole histories under one
  hash it survives if and only if between complete calls there are at most two such
  calls, one initiated by each end (`RetainedSecrets.SecretSurvivesIff`).
- After any run the two ends can still be secured, with the retransmissions their
  timers leave and the packets their sequence numbers let through, if and only if
  they are in neither of two dead ends (`TimedRuns.SecurityIsReachableIff`). In one,
  both send Commits with equal hvi or nonces and neither gives way; the two
  configurations tell if that can happen (`TimedRuns.EqualCommitsIff`). In the other,
  an end took a HelloACK that overtook every Hello of its peer, whose timer has given
  up: it waits for a Hello that nothing makes the peer send again, and drops the
  earlier ones. Any two ends can get there (`TimedRuns.HelloCanBeOvertaken`).
- On a first channel no run follows a NULL pointer if and only if the multistream
  mode is not what both ends prefer (`FirstChannels.FirstChannelsAreFaultlessIff`).
  When it is, the responder refuses the Commit but stays in the state where it
  resends the Confirm1 it never built, and the retransmission of the Commit makes it
  follow a NULL pointer.
- The "modulo 150" test of `bzrtp_resetRetransmissionTimer` finds the base step of
  the phase unless the channel is in clear (`Timer.ResetRecoversBaseIff`).
- After crossed GoClears the new session keys agree in every run if and only if all
  channels have one hash, as long as two hashes do not collide on the session key
  (`TimedGoClear.SessionKeysAgreeIff`).
- An end that waits for its ClearACK may wait for ever: its peer got to clear before
  its request arrived (`TimedGoClear.CrossedRequestsStrand`), or the ClearACK was
  overtaken by a GoClear of the same peer, which makes it out of order
  (`TimedGoClear.OvertakenAckStrands`, `TimedGoClear.LastRequestStrands`).
  `TimedGoClear.WaitingEndClearsIff` says exactly when it can still get to clear.
- Two ends whose lists of hashes start with different ones report a cache mismatch,
  and do not use the secret they share, in every call whose key agreement does not
  ask for the strongest hash: identifiers are made before the hash is agreed
  (`SafeRuns.SharedSecretIsMissedIff`, `Agreement.HashesAgreeIff`).
- `ZRTPSessContext` is written twice at offset 0. The model keeps what the second
  write leaves; it is the responder's ZID on both ends
  (`SafeRuns.BothEndsDeriveTheSameKeys`).

## Model

| member | source | states |
|---|---|---|
| Octets.MemCmpIsBigEndianOrder | src/stateMachine.c:607-627 | the memcmp of Commit contention orders hvi and nonces as large unsigned integers in network byte order, section 4.2 of RFC 6189, and is 0 only on equal strings |
| Bitmask.Bitmask256.constructor | src/cryptoUtils.cc:731-733 | the array represents the empty set of octets |
| Bitmask.Bitmask256.Set | src/cryptoUtils.cc:734 | under the unparenthesised macro, adds exactly one octet to the set the array represents, within bounds |
| Bitmask.Bitmask256.Unset | src/cryptoUtils.cc:735 | removes exactly one octet from it |
| Bitmask.UpdateIsLocal | src/cryptoUtils.cc:731-736 | the cell and bit of one octet, as the macro expands, are not those of another: setting or clearing one leaves the others |
| Negotiation.SelectCommonAlgo | src/cryptoUtils.cc:751-774 | for all lists, returns the first seven of the algorithms of master that slave also has, each once, in master order |
| Negotiation.CommonAlgosMembers | src/cryptoUtils.cc:751-774 | those are exactly the members of both lists |
| Negotiation.CommonAlgosOrdered | src/cryptoUtils.cc:751-774 | in the order of their first occurrence in master, without duplicates |
| Negotiation.AddMandatoryCryptoTypesIfNeeded | src/cryptoUtils.cc:788-828 | the in-place insertion leaves in the array what the reference says, with at most seven entries |
| Negotiation.CompactTurn | src/cryptoUtils.cc:797-812 | one turn of the compaction keeps the invariant of the loop, in particular that kept entries and missing types fit in seven |
| Negotiation.KeptBound | src/cryptoUtils.cc:797-812 | kept entries and missing mandatory types never exceed seven |
| Negotiation.KeptOrdered | src/cryptoUtils.cc:797-812 | surviving entries are of the list, in its order, each once |
| Negotiation.WithMandatoryComplete | src/cryptoUtils.cc:788-828 | the result is duplicate-free, has at most seven entries and holds every mandatory type |
| Negotiation.WithMandatoryIdentity | src/packetParser.c:380-384 | a duplicate-free list that holds the mandatory types is left as it is |
| Agreement.CryptoAlgoAgreement | src/cryptoUtils.cc:465-624 | the code returned and the algorithms set are those of the reference function, on every pair of lists |
| Agreement.PickStrongest | src/cryptoUtils.cc:520-560 | the loop finds the strongest of the common algorithms |
| Agreement.SetSupportedCryptoTypes | src/bzrtp.c:758-797 | the list set is made of types asked for or mandatory, all implemented |
| Agreement.SupportedTypesAreConfigured | src/bzrtp.c:758-797 | whatever is asked for, the context ends up with a configured list |
| Agreement.AddType | src/bzrtp.c:195-245 | adds a type to a list that has room and lacks it |
| Agreement.InitialisedStaysConfigured | src/bzrtp.c:195-245 | the types added at initialisation keep the lists configured |
| Agreement.ReceivedAsSent | src/packetParser.c:359-384 | the lists of a configured end reach the other end unchanged |
| Agreement.EveryHelloOffersMult | src/stateMachine.c:2197-2204 | any parsed Hello offers the multistream mode: the refusal of a peer without it is unreachable |
| Agreement.FirstChoice | src/cryptoUtils.cc:472-516 | the first common algorithm is the first of the own list that the peer has |
| Agreement.KeyAgreementSymmetric | src/cryptoUtils.cc:465-516 | both ends, each from its own list and the other's, pick the same key agreement, common to both lists and the faster of the two first choices |
| Agreement.ConfiguredAgree | src/cryptoUtils.cc:465-624 | two configured ends always agree, on algorithms both have, with code 0 |
| Agreement.DemandingGetsTheStrongest | src/cryptoUtils.cc:520-575 | key agreements that ask for it get AES-256 and SHA-512 from both ends when both have them |
| Agreement.PostQuantumGetsTheStrongest | src/bzrtp.c:195-245 | two initialised contexts that agree on a post-quantum key agreement agree on AES-256 and SHA-512 |
| Agreement.HashesAgreeIff | src/cryptoUtils.cc:562-590 | the two ends select one hash if and only if the first hash of each list that the other has is the same, or the key agreement asks for the strongest |
| Agreement.MultAgreedOnlyIfBothPreferIt | src/cryptoUtils.cc:465-516 | the multistream mode is agreed on only if both ends prefer it to anything they share |
| RetainedSecrets.BothEndsPickTheSharedSecret | src/stateMachine.c:475-509 | the initiator's and the responder's procedures keep the same s1: the initiator's rs1 if the responder holds it, else its rs2 if held, else none; each flags a mismatch exactly when it had a secret and none is shared; with different hashes both keep none |
| RetainedSecrets.MatchesAreFaithful | src/stateMachine.c:762-807 | both procedures are those of the reference on the secrets themselves, whether the two ends prefer one hash or not |
| RetainedSecrets.LostAcknowledgementsAreTolerated | src/stateMachine.c:2757-2843 | from equal rs1, over any run of sessions under one hash, in any roles, where lost Conf2ACKs are separated by complete sessions, no end flags a mismatch, and complete sessions leave equal rs1 |
| RetainedSecrets.SecretSurvivesIff | src/stateMachine.c:2757-2843 | from equal rs1 and with new derived secrets, no session of a run nor the next reports a mismatch if and only if both ends select one hash every time and between complete sessions at most two are cut short after the responder's update, one initiated by each end |
| RetainedSecrets.StepKeepsInStep | src/stateMachine.c:1200-1201 | one session from caches in step: no mismatch if and only if both ends select one hash, and then in step after |
| RetainedSecrets.FirstContact | src/stateMachine.c:2757-2843 | two ends that never met: no mismatch, and who flags one if the first Conf2ACK is lost |
| RetainedSecrets.TwoLostAcknowledgementsLoseTheSecret | src/stateMachine.c:2777-2783 | a concrete run of two lost Conf2ACKs after which no secret is shared |
| RetainedSecrets.HalfSessionKeepsTheSecretIff | src/stateMachine.c:2777-2783 | a session cut short after the responder's update keeps the shared secret if and only if it was the responder's rs1, or, under different hashes, unless the responder verifies the SAS |
| RetainedSecrets.VerifiedSessionResynchronises | src/bzrtp.c:607-621 | whatever the caches held, a complete session whose flagged ends verify the SAS leaves equal rs1; unverified, the flagged end keeps its cache |
| RetainedSecrets.RunsKeepCachesWellFormed | src/stateMachine.c:2757-2843 | no run of sessions leaves an rs2 without an rs1 |
| TwoEnds.ContentionDecides | src/stateMachine.c:607-655 | of two Commits of one mode, each end gives way exactly when the other does not, unless the values are equal; the lower unsigned integer gives way |
| TwoEnds.EventKeepsInvariant | src/stateMachine.c:52-1427 | any message of the network or any tick keeps the invariant of two ends and follows no NULL pointer |
| TwoEnds.RunsAreSafe | src/stateMachine.c:52-1495 | every run keeps it |
| SafeRuns.NeverTwoResponders | src/stateMachine.c:336-341 | in no run are both ends responder, and in no run does a state function follow a NULL pointer |
| SafeRuns.OnlyScriptMessagesAreSent | src/stateMachine.c:52-1495 | in any run an end sends only eight messages, which the two configurations determine, and never two different ones of a kind |
| SafeRuns.BothEndsDeriveTheSameKeys | src/stateMachine.c:2300-2660 | in any run, ends that hold keys hold the same MAC and ZRTP keys, KDF context and session key, in opposite roles, and the responder's ZID as context of the session key; each one's own SRTP key and salt are the other's peer key and salt, section 4.4.1.4 of RFC 6189 |
| SafeRuns.SecureEndsHaveAPeer | src/stateMachine.c:1429-1495 | an end that is secure faces one that has the keys |
| SafeRuns.KeysAreNeverRewritten | src/stateMachine.c:906-1495 | no further event of any run changes derived keys |
| SafeRuns.CrossedCommitsElectOneResponder | src/stateMachine.c:607-655 | two ends both sending Commits: exactly one turns responder on receiving the other's, the one with the lower value, unless the values are equal |
| TimedEnds.TimedRunsAreRuns | src/bzrtp.c:465-498 | a run with timers and sequence numbers is a run of the network that repeats and reorders at will: every property of those runs holds of it |
| InOrder.TakenMessageSteps | src/stateMachine.c:52-1495 | whoever sent it, a message that is taken makes a state be left only if it is one the state waits for, the next state does not wait for the same message, and the last message sent is the one the state repeats |
| Progress.StepKeepsOrder | src/packetParser.c:168-171 | whatever is delivered, dropped or retransmitted, the packet an end still waits for has not been overtaken by one it took |
| TimedRuns.SecurityIsReachableIff | src/stateMachine.c:52-1495 | after any run, with the timers as they are and out-of-order packets dropped, both ends can still be secured by some continuation if and only if they are not both sending Commits with equal values and no end waits for a Hello overtaken by the HelloACK it took, its peer's timer off |
| TimedRuns.EqualCommitsIff | src/stateMachine.c:607-655 | some run has both ends send Commits of one value if and only if the Commits determined by the configurations have one value; in the multistream mode, one nonce |
| TimedRuns.HelloCanBeOvertaken | src/stateMachine.c:129-141 | any two honest ends can reach the other dead end |
| Progress.OvertakenIsForever | src/stateMachine.c:176-236 | a Hello so overtaken is waited for in every continuation |
| Progress.UndecidedIsForever | src/stateMachine.c:607-655 | equal values are never resolved |
| SafeRuns.RunsAreSessions | src/stateMachine.c:2757-2843 | what a run on a first channel leaves in both caches is one session of the retained-secret model, whichever hashes the two ends select |
| SafeRuns.SharedSecretIsMissedIff | src/stateMachine.c:475-509 | in any run on a first channel between ends whose caches hold one rs1, a keyed end reports a mismatch if and only if the two lists of hashes do not start, of what both have, with the same one, and the key agreement does not ask for the strongest |
| FirstChannels.FirstChannelsAreFaultlessIff | src/stateMachine.c:1044-1130 | two configured ends on a first channel: no run follows a NULL pointer if and only if the multistream mode is not the first choice both lists have in common, with or without timers and sequence numbers |
| FirstChannels.MultFaults | src/stateMachine.c:2722-2727 | when it is, some run, with timers and sequence numbers, follows a NULL pointer |
| Authenticity.MessagesAreChecked | src/packetParser.c:424-770 | after any messages from anyone, each stored message of the peer has passed the checks of its stage |
| Authenticity.SecureEndHasCheckedItsPeer | src/packetParser.c:686-770 | whatever it was sent, a secure end has verified the peer's whole hash chain, the MACs of the stored Hello, Commit and DHPart, and as responder that hvi announced the DHPart2 it used, section 9 of RFC 6189 |
| Channel.ChannelContext.ProcessMessage | src/bzrtp.c:533-598 | a message updates the channel in place as the reference state machine says, and sends and returns what it says |
| Channel.ChannelContext.ProcessTimer | src/bzrtp.c:465-498 | so does a timer event, once the timer is due |
| Channel.ChannelContext.StateDiscoveryInit | src/stateMachine.c:52-168 | the state function does what its reference says, on every branch |
| Channel.ChannelContext.StateWaitingForHello | src/stateMachine.c:176-230 | the same for the wait for a Hello |
| Channel.ChannelContext.StateWaitingForHelloAck | src/stateMachine.c:246-362 | the same for the wait for a HelloACK, where a Commit may arrive |
| Channel.ChannelContext.StateSendingCommit | src/stateMachine.c:382-679 | the same while sending a Commit |
| Channel.ChannelContext.Contend | src/stateMachine.c:607-655 | Commit contention as the reference says |
| Channel.ChannelContext.StateResponderSendingDhPart1 | src/stateMachine.c:692-890 | the same for the responder's DHPart1 |
| Channel.ChannelContext.StateInitiatorSendingDhPart2 | src/stateMachine.c:906-1030 | the same for the initiator's DHPart2 |
| Channel.ChannelContext.StateResponderSendingConfirm1 | src/stateMachine.c:1044-1250 | the same for Confirm1 |
| Channel.ChannelContext.StateInitiatorSendingConfirm2 | src/stateMachine.c:1265-1416 | the same for Confirm2 |
| Channel.ChannelContext.StateSecure | src/stateMachine.c:1429-1495 | the same in secure mode, a repeated Confirm2 included |
| Channel.ChannelContext.MatchAsInitiator | src/stateMachine.c:475-509 | the initiator's comparison of secret identifiers is the reference one |
| Channel.ChannelContext.MatchAsResponder | src/stateMachine.c:762-807 | so is the responder's |
| Channel.ChannelContext.BecomeResponder | src/stateMachine.c:2032-2125 | bzrtp_turnIntoResponder as the reference says |
| Channel.ChannelContext.ComputeS0DhMode | src/stateMachine.c:2300-2498 | s0, the session key and the keys, in both roles |
| Channel.ChannelContext.ComputeS0MultiStreamMode | src/stateMachine.c:2509-2580 | s0 from the session key, and the keys |
| Channel.ChannelContext.DeriveSrtpKeysFromS0 | src/stateMachine.c:2620-2710 | the four SRTP values, by role |
| Channel.ChannelContext.UpdateSecrets | src/stateMachine.c:2757-2843 | what is written in the cache and what is erased |
| Crc32.Crc32 | src/cryptoUtils.cc:404-430 | the table-driven loop computes the checksum function |
| Crc32.TableHoldsRemainders | src/cryptoUtils.cc:333-399 | each of the 256 stored entries is what eight shifts make of its index |
| Crc32.TableFormIsBitwiseForm | src/cryptoUtils.cc:404-430 | the loop over such a table is the division, bit by bit, by the reflected polynomial 0x1EDC6F41, on every input |
| Crc32.ChecksumIsBitwise | src/cryptoUtils.cc:404-430 | so is the checksum computed with the stored table |
| Crc32.SetSequenceNumber | src/packetParser.c:1705-1731 | writes the sequence number and the checksum in place, and nothing else |
| Crc32.SealedPasses | src/packetParser.c:173-178 | a packet the sender sealed passes the receiver's test |
| Crc32.BurstsAreCaught | src/packetParser.c:173-178 | no change within four consecutive octets of the packet before the checksum, or within the checksum, passes |
| Crc32.ChangedOctetIsCaught | src/packetParser.c:173-178 | changing any one octet of a packet makes the test fail |
| Layout.NamesReadBack | src/cryptoUtils.cc:839-1097 | the two tables of algorithm names are inverse to each other on every family, and a name of another family is not known |
| Layout.AlgosReadBack | src/cryptoUtils.cc:839-965 | a known name is the name of the algorithm read |
| Layout.SplitUndoesJoin | src/packetParser.c:297-845 | fields written one after the other are read back by a pointer that advances by their widths |
| Layout.ListReadsBack | src/packetParser.c:359-378 | a list of algorithms is read back |
| Codec.HelloReadsBack | src/packetParser.c:305-400 | a Hello whose lists are duplicate-free and hold the mandatory types is parsed back to itself |
| Codec.CommitReadsBack | src/packetParser.c:411-510 | so is a Commit, in the Diffie-Hellman, KEM and multistream modes |
| Codec.DhPartReadsBack | src/packetParser.c:511-625 | so is a DHPart, under the key agreement of the channel |
| Codec.PlainReadsBack | src/packetParser.c:773-795 | the plain part of a Confirm is read back, with signatures up to 511 words |
| Codec.MessageReadsBack | src/packetParser.c:848-1214 | parsing undoes building on every message that fits its layout |
| Codec.MessagesAreWholeWords | src/cryptoUtils.cc:1260-1393 | every message is a whole number of words, padded KEM values included |
| Codec.PacketReadsBack | src/packetParser.c:95-295 | build, set sequence number, check and parse give the message back if and only if the packet is no longer than 3072 octets, given a newer sequence number |
| Codec.ChangedPacketIsDropped | src/packetParser.c:173-178 | a packet with one octet changed is dropped |
| PacketStrings.PacketString.Put | src/packetParser.c:895-905 | copies octets at the pointer and advances it |
| PacketStrings.PacketString.PutFields | src/packetParser.c:1004-1040 | writes the fields of a message one after the other |
| PacketStrings.PacketString.PutList | src/packetParser.c:916-936 | the loop over the algorithms of a family |
| PacketStrings.PutContent | src/packetParser.c:868-1062 | writes the content of a Hello, a Commit or a DHPart |
| PacketStrings.BuildSigned | src/packetParser.c:1206-1216 | the packet string holds the message with the MAC over what precedes it |
| PacketStrings.MessageReader.GetFields | src/packetParser.c:340-352 | reads fields through the advancing pointer |
| PacketStrings.MessageReader.GetList | src/packetParser.c:359-378 | the loop over the names of a family |
| PacketStrings.ParseHello | src/packetParser.c:305-400 | parses a Hello as the reference says, or refuses its length |
| PacketStrings.ParseCommit | src/packetParser.c:411-510 | the same for a Commit |
| PacketStrings.ParseDhPart | src/packetParser.c:511-625 | the same for a DHPart |
| OnTheWire.LayoutOpensConfirms | src/packetParser.c:773-795 | the layout of Confirms meets what the proofs about runs assume of it |
| OnTheWire.EveryMessageReadsBack | src/packetParser.c:297-845 | every message either end sends in any run is a whole number of words and is parsed back to itself, and what is hashed and MACed for it is what is sent |
| OnTheWire.ReassembledMessageReadsBack | src/packetParser.c:237-250 | a message that arrives in fragments, among others, is parsed back to itself |
| Fragments.Reassembler.Receive | src/packetParser.c:180-251 | the list, the buffer, the message id and the reply after a fragment are those of the reference step |
| Fragments.Reassembler.FindPlace | src/packetParser.c:206-226 | the search finds where the offset goes in the sorted list |
| Fragments.Reassembler.ReceivedLength | src/packetParser.c:231-237 | adds the lengths up in sixteen bits |
| Fragments.CutIntoFragments | src/packetParser.c:1222-1293 | the loop cuts the message into the reference's fragments |
| Fragments.CutFromTiles | src/packetParser.c:1222-1293 | the pieces follow each other from the first octet of the message to the last |
| Fragments.Fragmenter.Build | src/packetParser.c:1216-1298 | a message is cut only if its packet exceeds the MTU, and then takes the next message id |
| Reassembly.InsertSelected | src/packetParser.c:206-229 | the receiver's insertion keeps the list that of the pieces received, and tells a duplicate from a new piece |
| Reassembly.SumIsTotalIff | src/packetParser.c:231-237 | the lengths in words add up to the message if and only if every piece is there and none lost part of a word |
| Reassembly.StepTracks | src/packetParser.c:180-251 | one fragment of any message: list, buffer and reply follow the set of pieces received |
| Reassembly.MessagesAreNeverMixed | src/packetParser.c:180-251 | any interleaving of any messages: a packet handed on carries, octet for octet, one message all of whose pieces arrived |
| Reassembly.ListAndBufferFollowTheMessage | src/packetParser.c:198-229 | at any time the list is strictly sorted, made of pieces of one message, and the buffer agrees with that message on each of them |
| Reassembly.CompletesWithItsLastPiece | src/packetParser.c:237-250 | any order, with duplicates and older messages in between: "fragment" until the last distinct piece, then exactly the message |
| Reassembly.CutMessageSurvivesIff | src/packetParser.c:1216-1295 | a message that has to be cut is recovered if and only if the MTU is a multiple of four not above 3072; otherwise no run ever recovers it |
| Timer.RetransmissionTimer.Tick | src/bzrtp.c:465-498 | one tick, with the timer branch of the current state |
| Timer.RetransmissionTimer.ResetRetransmissionTimer | src/bzrtp.c:696-717 | the reset, only when not secure and initiator |
| Timer.ResetRecoversBaseIff | src/bzrtp.c:708-713 | the base step of the phase is recovered from any step it reached if and only if the channel is not in clear |
| Timer.FiringsAreBounded | src/stateMachine.c:147-161 | over any run, packets sent by the timer are bounded by what the states entered and the resets made allow; steps stay those of the phase |
| Timer.EachFiringCounts | src/stateMachine.c:661-675 | while time passes each firing takes one from what is left, and the step never shrinks |
| Timer.AStateSends | src/stateMachine.c:661-675 | a state entered afresh sends 21 Hellos or ClearACKs, 11 other messages, and its timer is on if and only if it sent fewer |
| Timer.TheTimerGivesUp | src/stateMachine.c:347-357 | after that many late ticks the timer is off |
| Timer.DeafStatesNeverStop | src/stateMachine.c:176-236 | a reset while waiting for a Hello leaves a timer that fires at every tick for ever, and sends nothing |
| ZidCache.Database.CacheGetZuid | src/zidCache.c:473-584 | finds or inserts the row of a binding, as the reference says, error codes included |
| ZidCache.Database.CacheWrite | src/zidCache.c:602-690 | updates or inserts a row of secrets |
| ZidCache.Database.CacheWriteActive | src/zidCache.c:742-847 | the transaction: the active flag moves and the secrets are written, or nothing changes |
| ZidCache.Database.UpdateActive | src/zidCache.c:791-827 | the flag is given to one row and taken from the others of its peer URI |
| ZidCache.Database.CacheGetPeerStatus | src/zidCache.c:969-1027 | the status of the first row by active flag then by last insertion |
| ZidCache.OperationsKeepTheTables | src/zidCache.c:473-847 | over any sequence of operations, rolled back ones included: one active row per peer URI, one row per binding, secrets for every active row |
| ZidCache.ZuidsAreForever | src/zidCache.c:473-584 | a binding keeps its zuid whatever happens next |
| ZidCache.SelfZidsAreForever | src/zidCache.c:242-300 | the ZID of a local user never changes |
| ZidCache.StatusIsOfTheActiveDevice | src/zidCache.c:989-1015 | the status of a peer is read from its active row when there is one |
| ZidCache.StatusPersists | src/zidCache.c:929-955 | it stays what it is until the flag of that device is written or another device of the peer calls |
| ZidCache.TablesHoldTheUpdate | src/stateMachine.c:2757-2843 | the tables implement the cache of the retained-secret model: the secrets read after an update are those it says, and those of other bindings are untouched |
| GoClear.ZrtpContext.ClearAllChannels | src/stateMachine.c:1549-1565 | every channel loses its keys, is in clear and initiator, and the session key is ratcheted once |
| GoClear.ZrtpContext.Receive | src/stateMachine.c:1497-1591 | a GoClear or a ClearACK in each of the three states |
| GoClear.ZrtpContext.AskGoClear | src/stateMachine.c:1599-1626 | all channels go to sending GoClear, one of them sends it |
| GoClear.AllChannelsClearTogether | src/stateMachine.c:1549-1594 | in every run, whoever asks, an end has all its channels in clear, without keys and as initiator, or none of them and its session key untouched |
| GoClear.EachEndRatchetsOnce | src/stateMachine.c:1557-1565 | two ends in clear have each ratcheted the shared session key exactly once, under the hash of a channel that was used to ask |
| GoClear.SessionKeysAgree | src/stateMachine.c:1713-1723 | when the hashes of all channels ratchet the session key alike, as one hash does, the two new session keys are equal, section 4.7.2 of RFC 6189 |
| TimedGoClear.SessionKeysAgreeIff | src/stateMachine.c:1713-1723 | between ends that accept to go clear they are equal in every run with timers and sequence numbers if and only if the hashes of all channels ratchet the session key alike: if and only if they are one hash, when different hashes ratchet it apart |
| TimedGoClear.CrossedRequestsRatchetApart | src/stateMachine.c:1751-1820 | a run in which each end ratchets under the hash of its own channel |
| TimedGoClear.TimedRunsAreRuns | src/bzrtp.c:465-498 | a run with timers and sequence numbers is a run of the network that repeats and reorders at will |
| TimedGoClear.WaitingEndClearsIff | src/stateMachine.c:1650-1850 | after any run, with the timers as they are and out-of-order packets dropped, an end waiting for its ClearACK can still get to clear if and only if a ClearACK it would take is under way, or its peer, in clear, still repeats its own, or its peer, not in clear, would take a GoClear under way or still to be repeated |
| TimedGoClear.StrandedForever | src/packetParser.c:168-171 | an end for which none of these holds never gets to clear |
| TimedGoClear.CrossedRequestsStrand | src/stateMachine.c:1861-1925 | crossed requests can strand an end whose peer got to clear before its request arrived |
| TimedGoClear.OvertakenAckStrands | src/stateMachine.c:1794-1796 | so can a ClearACK overtaken by its sender's own GoClear |
| TimedGoClear.LastRequestStrands | src/stateMachine.c:1823-1843 | so can the answer to the last GoClear the timer sends, overtaken in the same way, the peer not being in clear |

## Left out

- The channel fields that only serve callbacks, logging, mutexes, memory management and the wiping of keys: the model says whether a key or packet is present, not how it is erased.
- Random draws: each end draws its nonces, private values and random identifiers beforehand, one value per purpose.
- Sequence numbers and timers in `TwoEnds` and `SafeRuns`: what holds of every run of a network that repeats and reorders at will, with timers that never stop, holds of the runs that the check of sequence numbers and the timers leave (`TimedEnds.TimedRunsAreRuns`). `TimedRuns`, where runs have to exist, has both. The check on one packet is in `Codec.ReadPacket`.
- In `TimedEnds`: fragmented packets, which the check of sequence numbers lets through in any order, and `bzrtp_resetRetransmissionTimer`, by which an application can turn a timer on again and so leave the dead end of an overtaken Hello; and the sequence number of a Hello that is refused after it was parsed, which the code stores: configured ends refuse none.
- In `TimedGoClear`: `bzrtp_resetRetransmissionTimer`, by which the application of an end in clear can have its ClearACK repeated again, and packets sent before either end asked to go clear.
- Channel.ChannelContext.ProcessTimer: the test that the timer is on and due is in `Timer` and `TimedEnds`, not inside the class.
- Commits that name algorithms without an implementation: the model returns the error of `bzrtp_updateCryptoFunctionPointers`, and says nothing of function pointers left over from before.
- What follows a NULL pointer: `Fault` has no next state.
- The preshared mode, which the library does not finish, the SASrelay and Error messages, which it does not implement, and Ping.
- The Hello hash given out of band and the restart it can cause; exported keys; the rendering of the SAS and of incorrect ones.
- Sixteen-bit wrap of message ids and sequence numbers over a whole call; the builder's increment wraps in the model, the theorems on runs take ids from 1 on.
- Malformed fragments: a fragment lies inside the message it announces, with one total length per message id.
- Parsing of a message whose length field is not that of its packet, and of a Confirm shorter than its MAC and IV, where the code reads past the message: `Codec.ReadContent` refuses the latter.
- Codec.CommitReadsBack: not for the preshared mode, whose key identifier is not in the model of a Commit.
- Channel.ChannelContext.ProcessMessage: packets arrive parsed into their fields; octets are related to fields by `OnTheWire`, not inside the class.
- Reassembly.CompletesWithItsLastPiece: says nothing of a message overtaken by a newer one, which the receiver drops.
- GoClear.AllChannelsClearTogether: one episode, as all of `GoClear` and `TimedGoClear`; the Commits that lead back to secure mode are not followed, nor is the Commit a clear channel accepts, so nothing is said of the ratchets of several episodes.
- SafeRuns.BothEndsDeriveTheSameKeys: for one channel at a time, with a first channel whose Hellos do not agree on the multistream mode.
- Timer.FiringsAreBounded: resets made in clear or in a state without a timer branch are excluded; what they do is in `Timer.ResetRecoversBaseIff` and `Timer.DeafStatesNeverStop`.
- Schema creation and migration of the cache, custom tables, SQL text, reading of arbitrary columns and the build without a cache.
