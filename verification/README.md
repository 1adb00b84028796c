# securecnet in Dafny

A model of securecnet's transport, with proofs of what two endpoints keep true over a datagram network that
loses, duplicates, delays and reorders packets. `dafny verify dfyconfig.toml` checks the whole project.

## How the project is laid out

- `Config`, `Bytes`, `Codec`, `Wire`, `Hello`, `Nonces`: sizes and validators, byte cursors, message frames, delivery
  envelopes and packet headers as functions and as code on the cursors, handshake messages, packet nonces.
- `Windows`, `Ordered`, `Fragments`, `Sums`, `Reassembly`: the receive side, piece by piece.
- `Session`, `Retransmission`, `Congestion`, `Pacing`, `Sharing`: the send side, piece by piece, with whole-run theorems;
  `Pacing` is the client's packet queue, `Sharing` the one the server's sessions share. `Resending`, `Budget` and
  `Flushing` say exactly what a pass sends, what the budget earns, and why a flush stops.
- `Outbound`, `Inbound`, `Landing`, `Transport`: a sender, a network and a receiver put together. A *unit* is what one
  packet carries: a whole inline message, or one fragment. `Outbound` ties packets and reliable ids to units, `Inbound`
  shows that a packet is handled as the unit it carries, `Landing` shows what follows when every unit lands at most once,
  and `Transport` shows that the windows make it so and states the theorems. `Losses`, `Keeping` and `Stalls` say
  when a message is not sent, not kept or dropped, and that the ordered log then stops; `Datagrams` follows a
  payload to the bytes of a datagram and back. `Posting` says what goes on packets, `Refusals` which frames fail a
  connection; `Duplex` puts two directions together and `Acks` follows an acknowledgement through them.
- `Handshake`: agreement between any number of clients and one server. `Connection`: the client's states, keys and
  numbers. `SessionTable`: the server's sessions. `Greetings` ties the first two together, `Admission` says what
  a hello does to the table, `Timers` what time and packets do to both sides.

Code that changes objects in place is a class whose methods are proved equal to functions on values; the theorems are
about those functions and about runs of them. Fields and parameters marked as history record what happened and steer
nothing.

## What is assumed

- Encryption: a packet that decrypts was built by the peer with that number and those bytes (`Transport.Legal`). The
  handshake module takes keys and tags as symbols: a session key is determined by both public keys and its direction, the
  keyed hash is injective in key and message, key pairs are never drawn twice, and a tag that verifies was computed by the
  server (`Handshake.Legal`). The network may change every other field.
- The clock is monotone and not 0; sums of times do not wrap. The retransmission test `now - last_send < rto` is written
  `now < last_send + rto`. RTT samples are below 2^60 for `Session.EstimateBounds`.
- Configurations passed the validators, `max_pending_bytes` plus one message stays below 2^32, and twice `max_rto_ms` is
  below 2^64. For `Sharing`, the fastest rate times the server's uptime in milliseconds is
  below 2^64; for `Budget`, the budget plus the rate times the time since the last refill.
- Packet numbers, reliable ids, delivery numbers, fragment ids and peer ids have not wrapped (`Transport.CountersFit`).
- Callbacks of the application succeed and do not call back into the connection.
- Randomness, time, socket results and room in the packet queue are parameters; every theorem is for all of them.
- `Transport.SendMessage` excludes reliable inline messages of type 2 whose bytes parse as a fragment: type 2 is also the
  fragment type. `Inbound.InlineArrivesIffUnambiguous` shows that this is exactly the condition, in every receiver that is
  not reassembling the message that fragment names; `Inbound.TypeTwoCollides` is an instance of what happens otherwise.
- `Transport` is about the data phase of one session: encrypted frames, keepalives and raw packets. A handshake packet of
  the same peer ends an established connection (below).

## What does not hold

Five things a user of the code may expect fail. Each has an input and the exact condition, in the order input, condition.

- A duplicated packet of the peer is harmless: `Connection.SecondHelloCloses`; `Connection.StaysEstablishedIff` for the
  client. For the server `SessionTable.SecondCopyReplaces`; `SessionTable.HelloSparesIff`.
- An acknowledged message was delivered or kept: `Keeping.ThirdIsLost` where there is no room,
  `Keeping.FirstIsLeftBehind` where the id window has moved on; `Keeping.FreshFrameKeptIff`. It is then lost for good
  (`Keeping.AcknowledgedAndLost`), and on the ordered channel the log stops (`Stalls.RefusedStops`). What was kept may
  still be dropped, with the same end (`Stalls.DroppedStops`).
- A send that fails leaves no trace: on the ordered channel it may have spent a number,
  `Losses.FullQueueSpendsNumber`; `Losses.SendFailsIff` on every channel, with the sequenced number and the fragment id.
  The ordered log then stops below that number (`Losses.OrderedSendFailsIff`, `Stalls.SpentNumberStops`).
- The server sends the packets of one session and priority in the order they were queued: `Sharing.FiftyOvertakes`;
  `Sharing.FirstGoesIff`. Over whole runs only a longer packet is ever overtaken (`Sharing.RunIsSound`).
- Any type is free for a reliable message: `Inbound.TypeTwoCollides`; `Inbound.InlineArrivesIffUnambiguous`.

## Model

| member | source | states |
|---|---|---|
| Transport.OrderedLogIsPrefix | src/securecnet/lib/client.cpp:914-946 | in every run over a losing, duplicating, delaying and reordering network, what was handed over on ReliableOrdered, inline or fragmented, is a prefix of what the sender numbered there |
| Transport.NothingTwice | src/securecnet/lib/client.cpp:947-972 | in every such run there is an injective map from the other deliveries to sends with the same channel, type and bytes, so no send is delivered twice despite retransmission, and sequenced deliveries come in sending order |
| Transport.DataPacketsNeverFail | src/securecnet/lib/client.cpp:1014-1142 | data-phase packets of the session, however often and in whatever order they come, never fail the connection unless the receiver has fragmentation switched off, and every requirement of every step holds all along |
| Transport.InvariantHolds | src/securecnet/lib/client.cpp:1287-1374 | the invariant behind the theorems: packets and ids accepted are exactly the windows' sets, every unit that landed came in a packet that was accepted or whose id was, every ordered message delivered or buffered arrived in full, the reassembler mirrors the sent messages |
| Transport.StepKeeps | src/securecnet/lib/client.cpp:1517-1531 | each single step of sender, network or receiver keeps that invariant, and a unit that came and was not kept stays away |
| Landing.LandKeeps | src/securecnet/lib/client.cpp:983-1012 | a unit that had not landed before keeps the ordered prefix, the injective origins and the sequenced order when it lands |
| Landing.DeliverKeeps | src/securecnet/lib/client.cpp:914-972 | handing a whole message to deliver_application_message keeps the three delivery properties, on each of the four channels |
| Landing.CollectIsLocal | src/securecnet/include/securecnet/fragmentation.hpp:176-250 | a fragment changes the bookkeeping of its own message only, and completes it only when every index is there |
| Landing.SendingLands | src/securecnet/lib/client.cpp:567-707 | numbering one more message disturbs nothing the receiver already holds |
| Landing.LandFailsIff | src/securecnet/lib/client.cpp:983-1012 | a new unit of the peer fails the connection if and only if it is a fragment, fragmentation is switched off and the server's memory check, or the entry already there, lets it through |
| Landing.MissedStays | src/securecnet/lib/client.cpp:983-1012 | a unit of an ordered message that came and was not kept is not brought back by any other unit that lands |
| Losses.OrderedSendFailsIff | src/securecnet/lib/client.cpp:657-707 | send() on ReliableOrdered takes a number if and only if the size and fragmentation guards pass, and then fails, with the number spent and the last unit on no packet and in no session, if and only if some unit finds no room in the packet queue or in the session |
| Losses.SendFailsIff | src/securecnet/lib/client.cpp:657-707 | send() on any channel changes nothing if and only if a guard turns it away; past the guards the message has its ordered, sequenced and fragment numbers whether or not the send then fails, which it does if and only if some unit finds no room |
| Losses.FullQueueSpendsNumber | src/securecnet/lib/client.cpp:684-707 | an instance: the empty message sent while the packet queue is full fails, has spent a number, and is on no packet and in no session |
| Losses.UnitsSentIff | src/securecnet/lib/client.cpp:592-629 | the loop over the units succeeds if and only if every unit, after those before it, finds room in the packet queue and within both session limits |
| Losses.SendGone | src/securecnet/lib/client.cpp:657-707 | a unit on no packet and in no session stays so, whatever else is sent |
| Losses.PumpGone | src/securecnet/lib/client.cpp:838-875 | a retransmission pass does not bring it back |
| Losses.AckGone | src/securecnet/include/securecnet/reliability.hpp:344-365 | an acknowledgement does not bring it back |
| Keeping.FreshFrameKeptIff | src/securecnet/lib/client.cpp:1059-1117 | in every receiver that took only what the peer sent, a reliable frame of a unit that has not landed is delivered or kept if and only if the id window admits it (never accepted, and no accepted id 64 or more ahead) and there is room: both reassembly limits and the server's for a fragment, the ordered window for a message that is complete but not next |
| Keeping.FreeFrameKeptIff | src/securecnet/lib/client.cpp:1119-1142 | an unreliable or sequenced frame of a unit that has not landed is delivered or kept if and only if there is room and, on the sequenced channel, the message is newer than all delivered; with its last unit exactly the whole message is handed over |
| Keeping.InlineFrameKeptIff | src/securecnet/include/securecnet/reliability.hpp:593-645 | in every receiver whatever, the frame of an inline message leaves it delivered or held if and only if it was held before, or the id window admits it and it is next or the ordered buffer has room |
| Keeping.AlwaysAcknowledged | src/securecnet/lib/client.cpp:1070-1074 | every reliable frame the peer built is acknowledged, in every receiver, before its id, order or room is looked at |
| Keeping.AcknowledgedAndLost | src/securecnet/lib/client.cpp:1070-1108 | any unit on either reliable channel, inline or fragment, whose id the window does not admit or that finds no room is acknowledged and not kept, and after any further frames and expiries, each at its own time and memory verdict, every copy of it comes to nothing |
| Keeping.RefusedForGood | src/securecnet/include/securecnet/reliability.hpp:212-241 | in every receiver whatever, once the id window refuses an id, as accepted before or as left behind, every later copy of its frame is acknowledged and comes to nothing |
| Keeping.TurnedAwayForGood | src/securecnet/lib/client.cpp:1070-1108 | in every receiver whatever, an inline ordered message that is new, not next and finds the buffer full is acknowledged and comes to nothing, now and in every later copy |
| Keeping.ThirdIsLost | src/securecnet/include/securecnet/reliability.hpp:631-645 | an instance: with room for one, messages 2, 3, 1 and 3 again deliver 1 and 2 only, and 3 was acknowledged |
| Keeping.FirstIsLeftBehind | src/securecnet/include/securecnet/reliability.hpp:226-241 | an instance: message 65 comes before message 1; the retransmission of 1 is acknowledged, is next and has room, and comes to nothing because its id is 64 behind |
| Keeping.IdsGrowAfter | src/securecnet/include/securecnet/reliability.hpp:212-241 | on either reliable channel an id once accepted stays accepted, whatever frames and expiries follow |
| Stalls.GoneStops | src/securecnet/lib/client.cpp:657-707 | in every run, once a unit of ordered message n is on no packet and in no session the ordered log stays shorter than n for good |
| Stalls.SpentNumberStops | src/securecnet/lib/client.cpp:684-707 | in every run, a send on ReliableOrdered that passes the guards and finds no room for some unit stops the ordered log below its number for good |
| Stalls.HeldIffRoom | src/securecnet/lib/client.cpp:1059-1108 | in every reachable state and for any packet of an ordered unit: the unit is held afterwards if and only if it was before, or the replay window and the id window both admit it and there is room; once the packet is let through its id is refused |
| Stalls.RunLasts | src/securecnet/lib/client.cpp:914-946 | over the rest of any run what landed stays landed, a unit that came and was not kept stays away, and a unit whose id is refused before it landed never lands |
| Stalls.RefusedStops | src/securecnet/include/securecnet/reliability.hpp:212-241 | in every run, once the ordered id window refuses the id of a unit that the receiver does not hold, whether it was turned away, dropped or left behind, the ordered log stays below its message for good |
| Stalls.LeftBehindStops | src/securecnet/include/securecnet/reliability.hpp:226-241 | in every run, once an id 64 or more past that of a unit the receiver does not hold was accepted, the ordered log stays below that message for good |
| Stalls.DroppedStops | src/securecnet/lib/client.cpp:1470-1475 | in every run, a fragment of an ordered message that was held and no longer is, because it expired or its message was completed when the ordered buffer was full, stops the ordered log below that message for good |
| Stalls.TurnedAwayStops | src/securecnet/lib/client.cpp:1070-1108 | in every run, a unit of ordered message n that is let through and so acknowledged, is not held, and whose id is refused or that finds no room, stops the ordered log below n for good |
| Outbound.SendKeepsAll | src/securecnet/lib/client.cpp:657-707 | send() keeps the book: ordered, sequenced and fragment numbers count the messages of their kind, every packet carries the encoding of the unit it is tagged with, every reliable id belongs to one unit, and at most one message is recorded |
| Outbound.UnitFits | src/securecnet/include/securecnet/config.hpp:20-52 | every envelope on the way to a packet fits: no encoder check fails for any application message, inline or fragmented, and the plaintext is within the largest encrypted payload |
| Outbound.PumpLinks | src/securecnet/lib/client.cpp:838-898 | a retransmission carries the same unit under the same reliable id in a fresh packet |
| Outbound.AckLinks | src/securecnet/include/securecnet/reliability.hpp:344-365 | an acknowledgement at any time keeps every link between packets, ids and units |
| Outbound.SendGrows | src/securecnet/lib/client.cpp:392-396 | send() never reuses a packet number or a reliable id |
| Outbound.FragmentIdsDiffer | src/securecnet/lib/client.cpp:567-633 | two fragmented messages never share a fragment id |
| Outbound.OrderedAt | src/securecnet/lib/client.cpp:684-693 | the ordered message numbered n is the n-th one sent |
| Posting.SendGoesOut | src/securecnet/lib/client.cpp:657-707 | a send() that succeeds puts every unit of the message on a packet of its own, in order and under consecutive packet numbers; reliable units have consecutive ids and wait in their session |
| Posting.PumpGoesOut | src/securecnet/lib/client.cpp:838-875 | a retransmission pass puts on consecutive packets, in queue order, exactly the messages that are unexpired and not in flight or overdue, up to the first that finds no place or no room |
| Outbound.OutboundConnection.Queue | src/securecnet/lib/client.cpp:468-481 | queue_internal_message: the packet number is spent even when the queue is full |
| Outbound.OutboundConnection.PostMessage | src/securecnet/lib/client.cpp:550-565 | the packet queued, then note_sent on success and acknowledge on failure |
| Outbound.OutboundConnection.SendReliableMessage | src/securecnet/lib/client.cpp:532-565 | enqueue, queue, then note_sent or acknowledge: computes `Outbound.SendReliable`, which keeps ids and units in step (`Outbound.SendKeepsAll`) |
| Outbound.OutboundConnection.SendAll | src/securecnet/lib/client.cpp:592-629 | the loop over the fragments stops at the first failure and sends each fragment once, in order |
| Outbound.OutboundConnection.SendMessage | src/securecnet/lib/client.cpp:657-707 | checks, numbering and loop compute `Outbound.Send`, for which `Outbound.SendKeepsAll` and the run theorems are proved |
| Outbound.OutboundConnection.PumpReliable | src/securecnet/lib/client.cpp:838-875 | expire, then resend what is due, one packet for each message handed out; the message that finds no room has spent a packet number and ends the pass |
| Inbound.FreeFrameLands | src/securecnet/lib/client.cpp:1119-1142 | a frame of an unreliable or sequenced unit, or its fragment, decodes to the unit it encodes and is handled as that unit |
| Inbound.TrackedFrameLands | src/securecnet/lib/client.cpp:1059-1117 | a frame of a reliable unit is handled as that unit when its id is new, and does nothing otherwise |
| Inbound.OneFrame | src/securecnet/lib/client.cpp:1144-1163 | a packet of one frame does what the frame does |
| Inbound.InlineArrivesIffUnambiguous | src/securecnet/lib/client.cpp:1077-1088 | a reliable or ordered inline message, when its turn comes, reaches the application as itself if and only if its type is not 2 or its bytes do not parse as a fragment, in every receiver that is not reassembling the message that fragment names |
| Inbound.TypeTwoCollides | src/securecnet/lib/client.cpp:1077-1088 | a concrete 25-byte reliable message of type 2 that is delivered as an unreliable message of type 7 |
| Inbound.Misread | src/securecnet/lib/client.cpp:1077-1088 | a reliable inline message of type 2 that parses as a fragment is handled as that fragment |
| Inbound.HandleFragmentConsistent | src/securecnet/lib/client.cpp:983-1012 | handling any fragment, honest or not, keeps the reassembler's accounting |
| Inbound.InboundConnection.DeliverMessage | src/securecnet/lib/client.cpp:914-972 | on the window objects computes `Inbound.Deliver`, for which `Landing.DeliverKeeps` is proved |
| Inbound.InboundConnection.AcceptPiece | src/securecnet/lib/client.cpp:983-1012 | handle_fragment_payload: which reassembler errors are dropped and which end the connection |
| Inbound.InboundConnection.DispatchFrame | src/securecnet/lib/client.cpp:1014-1142 | over all five channels computes `Inbound.Dispatch`, which undoes the sender's encoding (`Inbound.TrackedFrameLands`, `Inbound.FreeFrameLands`) and fails exactly as `Refusals.FrameFailsIff` says, and gives exactly the signals of `Inbound.AcknowledgeIff` and `Inbound.HeardIff` |
| Inbound.HeardIff | src/securecnet/lib/client.cpp:1016-1034 | for every frame whatever: it has the sender take id i of channel c as acknowledged if and only if it is a control frame of type ReliableAck whose bytes are the encoding of c and i, c reliable and i from 1 to 2^64 - 1 |
| Inbound.AcknowledgeIff | src/securecnet/lib/client.cpp:1059-1070 | for every frame whatever: it is answered with an acknowledgement of id i on channel c if and only if c is its own channel, reliable, and its data starts with i, which is not 0 |
| Inbound.SignalsProper | src/securecnet/lib/client.cpp:1014-1070 | no frame gives more than one such signal, and each names a reliable channel and an id that can be encoded |
| Refusals.FrameFailsIff | src/securecnet/lib/client.cpp:1014-1142 | for every frame and every receiver whatever: it fails the connection if and only if it cannot be read as what it says it is, is a control frame of an unknown type, or carries a fatal fragment; a reliable frame whose id the window refuses never does |
| Refusals.FragmentFailsIff | src/securecnet/lib/client.cpp:983-1012 | for every receiver and fragment: it fails the connection if and only if fragmentation is off, it contradicts what is known of its message, or it completes an ordered message without a number; neither its size nor want of room does |
| Refusals.RejectedIff | src/securecnet/include/securecnet/fragmentation.hpp:158-250 | accept() turns a fragment away for exactly one of four reasons, each with its own error, and then changes nothing |
| Refusals.KnownVerdict | src/securecnet/include/securecnet/fragmentation.hpp:176-250 | for a message that is known: a contradiction, a duplicate, or the last fragment missing, each if and only if the flags and fields say so |
| Refusals.ReplayDoesNothing | src/securecnet/lib/client.cpp:1321-1343 | a packet without a number fails the connection and one seen before does nothing: no delivery, no signal, no change |
| Duplex.DirectionsAreRuns | src/securecnet/lib/client.cpp:1014-1142 | in every run of two endpoints that send to each other and acknowledge what they take, each direction is a run of `Transport`, so every theorem there holds in both directions at once |
| Duplex.ParcelSignals | src/securecnet/lib/client.cpp:490-506 | what a packet of the peer asks for is what it was built for: a reliable one an acknowledgement of its channel and id, an acknowledgement the removal of its channel and id, any other nothing |
| Acks.AckLoop | src/securecnet/lib/client.cpp:1026-1028 | in every run and over any steps between: a reliable packet is taken, its acknowledgement goes back, and when that is taken exactly the message of that id leaves exactly the session of that channel |
| Acks.TakeRemovesExactly | src/securecnet/lib/client.cpp:1026-1028 | in every state a packet takes out of either session exactly the message it acknowledges, on the channel it names; a replayed packet and every other one take nothing |
| Acks.TakeAnswers | src/securecnet/lib/client.cpp:1070 | taking a new reliable packet queues, with room, one packet that acknowledges its channel and id |
| Acks.AcknowledgedWasReceived | src/securecnet/lib/client.cpp:1014-1070 | in every run, an id that a sender took as acknowledged was on a packet that the other endpoint took: both its windows refuse it now |
| Acks.AlwaysTruthful | src/securecnet/lib/client.cpp:1014-1070 | the invariant behind it: what an endpoint owes it received, its acknowledgements are owed, and the other endpoint heard nothing else |
| Acks.AckTakesExactly | src/securecnet/include/securecnet/reliability.hpp:344-365 | acknowledge() leaves exactly the messages with another id |
| Inbound.InboundConnection.DispatchPayload | src/securecnet/lib/client.cpp:1144-1163 | the frame loop handles frames in turn, and collects their acknowledgements, until one is malformed or ends the connection |
| Inbound.InboundConnection.ReceivePacket | src/securecnet/lib/client.cpp:1321-1343 | sequence 0 is refused, a replay is dropped, anything else is dispatched |
| Windows.SlideRefinesSet | src/securecnet/include/securecnet/protocol.hpp:99-125 | one accept() call on the mask: the verdict is that of the set of accepted numbers (new, and none accepted 64 or more ahead), and bit d stands for latest-d |
| Windows.RunRefinesSet | src/securecnet/include/securecnet/protocol.hpp:97-141 | after any list of numbers the mask represents the set of accepted ones |
| Windows.SlideTwice | src/securecnet/include/securecnet/protocol.hpp:99-125 | the second accept() of a number always refuses it |
| Windows.RunVerdict | src/securecnet/include/securecnet/protocol.hpp:99-125 | each verdict of a run is the set's verdict at that moment |
| Windows.RunAcceptsOnce | src/securecnet/include/securecnet/protocol.hpp:99-125 | no number is ever accepted twice |
| Windows.ReplayWindow.Accept | src/securecnet/include/securecnet/protocol.hpp:99-125 | the shifting code gives the set's verdict and adds the number exactly when it is accepted |
| Windows.ReliableReceiveWindow.Accept | src/securecnet/include/securecnet/reliability.hpp:212-241 | the same for reliable ids, with id 0 refused |
| Windows.ReliableReceiveWindow.Seen | src/securecnet/include/securecnet/reliability.hpp:243-256 | an id is reported seen exactly when it was accepted and is still within 64 of every accepted id |
| Windows.SequencedReceiveWindow.Accept | src/securecnet/include/securecnet/reliability.hpp:673-687 | accepts exactly the numbers above every accepted one |
| Ordered.RunReflects | src/securecnet/include/securecnet/reliability.hpp:593-645 | after any arrivals the log is exactly 1..next-1 in order, the buffer is exactly what was kept beyond, next is missing, and the buffer respects its limit |
| Ordered.AcceptReflects | src/securecnet/include/securecnet/reliability.hpp:593-645 | one accept() follows the simple form, and its verdict tells what happened to the number |
| Ordered.AcceptTracks | src/securecnet/include/securecnet/reliability.hpp:608-629 | a message the sender numbered releases exactly the next stretch of the sender's log |
| Ordered.OrderedReceiveWindow.Accept | src/securecnet/include/securecnet/reliability.hpp:593-645 | the drain loop terminates and computes `Ordered.AcceptMessage`, the window of `Ordered.RunReflects` |
| Ordered.HeldAfter | src/securecnet/include/securecnet/reliability.hpp:593-645 | accept() holds on to exactly what it held, and to the new number if and only if it is next or the buffer has room |
| Fragments.Layout | src/securecnet/include/securecnet/fragmentation.hpp:42-50 | fragments are non-empty, contiguous and within the length, with no U16 wrap of index*1212 |
| Fragments.CountBounds | src/securecnet/include/securecnet/fragmentation.hpp:36-40 | how many fragments a length needs: enough for every byte, and no more |
| Fragments.HomeOf | src/securecnet/include/securecnet/fragmentation.hpp:36-50 | every byte lies in exactly one fragment |
| Fragments.JoinAll | src/securecnet/lib/client.cpp:592-606 | the fragments put end to end are the message |
| Fragments.PolicyAllowsCount | src/securecnet/include/securecnet/config.hpp:331-356 | a validated configuration makes the sender's count-exceeds-policy branch unreachable |
| Fragments.FragmentRoundTrip | src/securecnet/include/securecnet/fragmentation.hpp:107-149 | read_fragment_payload accepts exactly the encodings of well-formed fragments |
| Reassembly.RunRefinesSimple | src/securecnet/include/securecnet/fragmentation.hpp:158-264 | for any interleaving, duplication and expiry of the fragments of any messages, the verdicts are those of plain sets of indices: a message completes exactly when its last missing fragment arrives, as the original |
| Reassembly.AcceptRefinesCollect | src/securecnet/include/securecnet/fragmentation.hpp:158-250 | one accept() gives the verdict of the sets, and the buffers go on mirroring the originals |
| Reassembly.FullIsWhole | src/securecnet/include/securecnet/fragmentation.hpp:223-250 | an entry with every flag set holds the message byte for byte |
| Reassembly.AcceptKeepsQuota | src/securecnet/include/securecnet/fragmentation.hpp:183-206 | for any fragment memory_bytes stays the sum of the entries' lengths, both per-peer limits hold, and memory grows only by a new entry's length |
| Reassembly.ExpiryKeepsQuota | src/securecnet/include/securecnet/fragmentation.hpp:252-264 | expiry keeps the accounting and never adds memory |
| Reassembly.OverrunUnreachable | src/securecnet/include/securecnet/fragmentation.hpp:223-226 | a fragment the codec accepted never runs past its buffer |
| Reassembly.FragmentReassembler.Accept | src/securecnet/include/securecnet/fragmentation.hpp:158-250 | on the map, buffers and flags computes `Reassembly.AcceptFragment`, which refines sets of indices (`Reassembly.AcceptRefinesCollect`), and stays within both limits |
| Reassembly.FragmentReassembler.ExpireOld | src/securecnet/include/securecnet/fragmentation.hpp:252-264 | the erasing loop leaves exactly the fresh entries and reports exactly the others |
| Reassembly.FragmentReassembler.Clear | src/securecnet/include/securecnet/fragmentation.hpp:270-273 | empties the map and the count |
| Session.EnqueueAccepts | src/securecnet/include/securecnet/reliability.hpp:302-338 | enqueue succeeds if and only if both queue limits and the message size allow it |
| Session.EnqueueKeepsValid | src/securecnet/include/securecnet/reliability.hpp:302-338 | enqueue keeps the byte and inflight totals, the three limits and the order by priority, then by id |
| Session.AcknowledgeKeepsValid | src/securecnet/include/securecnet/reliability.hpp:344-365 | acknowledge keeps all of that |
| Session.ResendKeepsValid | src/securecnet/include/securecnet/reliability.hpp:371-412 | resend_due keeps all of that, wherever the callback fails |
| Session.NoteSentKeepsValid | src/securecnet/include/securecnet/reliability.hpp:453-473 | note_sent keeps all of that |
| Session.ExpireKeepsValid | src/securecnet/include/securecnet/reliability.hpp:436-451 | expire_old keeps all of that |
| Session.EstimateBounds | src/securecnet/include/securecnet/reliability.hpp:548-561 | for every history of bounded samples SRTT lies between the smallest and largest sample, RTTVAR is at most max(1, largest), the RTO is within its limits, and nothing wraps |
| Session.UpdateRttExact | src/securecnet/include/securecnet/reliability.hpp:548-561 | with bounded samples the U64 arithmetic is exact, from the first sample on: section 2 of RFC 6298 with the alpha and beta of the code |
| Session.ReliableSession.Enqueue | src/securecnet/include/securecnet/reliability.hpp:302-338 | checks, numbering and insertion compute `Session.EnqueueMessage`; when it succeeds is `Session.EnqueueAccepts` |
| Session.ReliableSession.Insert | src/securecnet/include/securecnet/reliability.hpp:328-335 | the search loop inserts before the first message of lower priority |
| Session.ReliableSession.Acknowledge | src/securecnet/include/securecnet/reliability.hpp:344-365 | removal, counters and the RTT sample compute `Session.AcknowledgeMessage`; when a sample is taken is `Retransmission.SampleIsKarns` |
| Session.ReliableSession.ResendDue | src/securecnet/include/securecnet/reliability.hpp:371-412 | the loop with its back-off, inflight limit and failing callback computes `Session.ResendDueMessages`: what that sends is `Resending.ResendsExactly`, its spacing over runs `Retransmission.RunIsSound` |
| Resending.ResendsExactly | src/securecnet/include/securecnet/reliability.hpp:371-412 | for every session, time and callback: the messages sent are, in queue order, exactly the unexpired ones that are not in flight or were last sent at least their RTO ago, up to the first that finds no place or whose callback fails; it says what every message is afterwards and when the pass reports failure |
| Resending.AllReadyAreResent | src/securecnet/include/securecnet/reliability.hpp:371-412 | with a place for each and a callback that succeeds the ids sent are exactly those |
| Resending.PassIsRecorded | src/securecnet/include/securecnet/reliability.hpp:371-412 | in a trace, the pass adds its time to the send times of exactly those messages |
| Resending.NoneStaysOverdue | src/securecnet/include/securecnet/reliability.hpp:371-412 | in every reachable state such a pass sends every unexpired message that was never sent or was last sent at least min(max_rto, r0*2^k) ago, where k + 1 is how often, and no other |
| Resending.ExpiresExactly | src/securecnet/include/securecnet/reliability.hpp:436-451 | expire_old leaves exactly the messages without a lifetime or within it |
| Resending.NotesExactly | src/securecnet/include/securecnet/reliability.hpp:453-473 | note_sent succeeds for a pending message if and only if it is in flight or there is a place, and then counts and dates that message only |
| Resending.EnqueuesExactly | src/securecnet/include/securecnet/reliability.hpp:302-338 | the enqueued message holds what it was given, the next id and the present RTO, unsent, and joins the others |
| Session.ReliableSession.NoteSent | src/securecnet/include/securecnet/reliability.hpp:453-473 | marks the message sent unless the inflight limit is reached: computes `Session.NoteSentMessage`, kept within the limits by `Session.NoteSentKeepsValid` |
| Session.ReliableSession.ExpireOld | src/securecnet/include/securecnet/reliability.hpp:436-451 | the erasing loop leaves exactly the unexpired messages with the right totals |
| Retransmission.RunIsSound | src/securecnet/include/securecnet/reliability.hpp:302-485 | in every reachable state: totals, limits and order hold; every enqueued id is in exactly one of pending, acknowledged and expired; consecutive sends k and k+1 of a message are at least min(max_rto, r0*2^k) apart; the RTO is the estimate over the samples taken |
| Retransmission.IntervalDoubles | src/securecnet/include/securecnet/reliability.hpp:388 | a doubling clamped to the limits is the next interval min(max_rto, r0*2^k) |
| Retransmission.SampleIsKarns | src/securecnet/include/securecnet/reliability.hpp:355-359 | a sample is taken exactly for a message sent once, and is its age: section 3 of RFC 6298 |
| Congestion.ControllerStaysInBounds | src/securecnet/include/securecnet/congestion_control.hpp:64-109 | acks, losses and back-pressure keep rate and window within the configured bounds; only acks raise the rate |
| Congestion.ConfigureIsValid | src/securecnet/include/securecnet/congestion_control.hpp:21-45 | a validated configuration starts within the bounds |
| Congestion.RunIsPaced | src/securecnet/lib/client.cpp:442-462 | over any run the budget never underflows nor passes the bucket, and 1000*bytes_sent <= 1000*initial_budget + max_rate*elapsed_ms |
| Congestion.CongestionController.Ack | src/securecnet/include/securecnet/congestion_control.hpp:64-84 | additive increase unless retransmitted; rate and window stay within their bounds and the rate never falls |
| Congestion.CongestionController.Loss | src/securecnet/include/securecnet/congestion_control.hpp:86-96 | multiplicative decrease outside the cooldown; rate and window stay within their bounds and the rate never rises |
| Congestion.CongestionController.Backpressure | src/securecnet/include/securecnet/congestion_control.hpp:98-109 | the same for back-pressure |
| Congestion.CongestionController.ResetRuntime | src/securecnet/include/securecnet/congestion_control.hpp:27-45 | rate and window as configured, within their bounds for a validated configuration |
| Pacing.ReachableIsSound | src/securecnet/lib/client.cpp:793-836 | in every reachable state of the packet queue: descending priority, the limit, the byte count, first in first out without loss for each priority, and a balanced budget |
| Pacing.SendQueue.EnqueuePending | src/securecnet/lib/client.cpp:360-376 | the insertion loop puts the packet behind its own priority, or the queue is full: computes `Pacing.Enqueue` |
| Pacing.SendQueue.RefillSendBudget | src/securecnet/lib/client.cpp:442-462 | the refill with its U64 arithmetic computes `Congestion.Refill`; without wrap-around it refills if and only if rate*elapsed_ms >= 1000, by the whole bytes earned, or up to the bucket |
| Budget.RefillIs | src/securecnet/lib/client.cpp:442-462 | without wrap-around, the bucket after a refill on its fields: the bytes earned since the last refill, rounded down, within max(1300, 2*rate); before a whole byte is earned nothing changes, the time of the last refill included |
| Budget.RefillGains | src/securecnet/lib/client.cpp:454-459 | a refill takes place if and only if at least one byte was earned, and earns less than one byte short of rate*elapsed_ms/1000, unless it fills the bucket |
| Budget.EarnsAtLeast | src/securecnet/lib/client.cpp:442-462 | over any run of refills, sends, acks, losses and back-pressure at rate r or more in which the bucket was never full: 1000*(sent + budget) + 999*refills >= 1000*(sent + budget at the start) + r*(last refill - start) |
| Budget.EarnsUntilNow | src/securecnet/lib/client.cpp:442-462 | the same up to the present when the run ends with a refill, but for one byte more |
| Budget.RunEarns | src/securecnet/lib/client.cpp:442-462 | so every such run from the opening earns at least the configured least rate, beside the upper bound of `Congestion.RunIsPaced` |
| Budget.AckMovesRate | src/securecnet/include/securecnet/congestion_control.hpp:64-84 | an ack adds max(1, additive increase) to the rate, up to the greatest, for a message sent once, and leaves rate and window for a retransmitted one |
| Budget.AckMovesRtt | src/securecnet/include/securecnet/congestion_control.hpp:70-77 | an ack with a sample moves the smoothed round-trip time an eighth of the way to it |
| Budget.LossMovesRate | src/securecnet/include/securecnet/congestion_control.hpp:86-96 | a loss scales the rate by the configured per mille, not below the least rate, if and only if its count is positive and the cooldown is over, and then starts the cooldown |
| Budget.BackpressureMovesRate | src/securecnet/include/securecnet/congestion_control.hpp:98-109 | back-pressure does the same with its own per mille and cooldown |
| Budget.WindowIs | src/securecnet/include/securecnet/congestion_control.hpp:153-167 | the window is what the rate sends in a round trip of at least 25 ms, at least a packet and within its limits |
| Budget.StartsAt | src/securecnet/include/securecnet/congestion_control.hpp:21-45 | a validated configuration starts at the configured rate, or at half the greatest |
| Flushing.FlushSendsPrefix | src/securecnet/lib/client.cpp:793-836 | for every queue, clock and socket: the client's flush sends a prefix of the queue, each packet within the budget of its round, and stops only at a packet dearer than the refilled budget or one the socket does not take; it fails exactly when the socket breaks |
| Flushing.WalkEnds | src/securecnet/lib/server.cpp:1185-1263 | for every shared queue: a walk ends at the first packet that may go, which is sent, dropped, blocked or broken by its session and the socket; it passes over no packet without a session and no first packet of a session that affords it |
| Flushing.FlushLeavesOnlyBlocked | src/securecnet/lib/server.cpp:1185-1263 | in every reachable state, a flush on a socket that takes everything succeeds and leaves only packets dearer than the refilled budget of their session |
| Flushing.WalkBuckets | src/securecnet/lib/server.cpp:1185-1263 | a session none of whose packets was passed over has its bucket unchanged, or refilled and less by the packet sent, pressed when the socket blocked, and only refilled when it broke |
| Pacing.SendQueue.FlushPending | src/securecnet/lib/client.cpp:793-836 | the sending loop with throttling, would-block and socket errors computes `Pacing.Flush`, the step of `Pacing.ReachableIsSound` |
| Sharing.RunIsSound | src/securecnet/lib/server.cpp:1185-1263 | in every reachable state of the server's shared packet queue, with any sessions opening, closing, acknowledging and losing: by priority and then in queueing order, within its limit, every packet queued was sent, dropped or waits, none was overtaken by one of its session and priority as long or longer, and every session's budget balances |
| Sharing.EverySessionIsPaced | src/securecnet/lib/server.cpp:1164-1183 | whatever the other sessions do, 1000*bytes_sent <= 1000*initial_budget + max_rate*elapsed_ms for each session since it was opened |
| Sharing.ScanPassesOver | src/securecnet/lib/server.cpp:1191-1210 | a packet goes out only past packets whose sessions could not afford them, and past its own session's only if those are longer |
| Sharing.ShorterOvertakes | src/securecnet/lib/server.cpp:1203-1209 | first in first out within a session and a priority fails: a shorter packet the budget covers goes out before a longer one queued earlier |
| Sharing.FiftyOvertakes | src/securecnet/lib/server.cpp:1203-1209 | an instance: with a budget of 100 bytes a packet of 50 goes out before one of 200 queued earlier |
| Sharing.FirstGoesIff | src/securecnet/lib/server.cpp:1191-1252 | when a walk over the queue sends a packet of a session, it is the first of that session's if and only if the session's budget covers that first one |
| Sharing.RefillTwice | src/securecnet/lib/server.cpp:1164-1183 | refilling again at the same time, after back-pressure, earns nothing |
| Sharing.ScanBooks | src/securecnet/lib/server.cpp:1191-1252 | one walk over the queue keeps every session's budget balanced |
| Sharing.SharedQueue.EnqueuePending | src/securecnet/lib/server.cpp:579-595 | the insertion loop puts the packet behind its own priority, or the queue is full |
| Sharing.SharedQueue.Visit | src/securecnet/lib/server.cpp:1192-1252 | a packet is passed over exactly when its session exists and cannot afford it; otherwise it is sent, dropped or stops the walk |
| Sharing.SharedQueue.Walk | src/securecnet/lib/server.cpp:1191-1252 | the inner loop computes `Sharing.Scan`, whose order is `Sharing.ScanPassesOver` |
| Sharing.SharedQueue.Round | src/securecnet/lib/server.cpp:1187-1252 | one round takes exactly the packet its walk found out of the queue, with its bytes |
| Sharing.SharedQueue.FlushPending | src/securecnet/lib/server.cpp:1185-1263 | the outer loop terminates and computes `Sharing.Flush`, the step of `Sharing.RunIsSound` |
| Codec.ReadMessageOfEncode | src/securecnet/include/securecnet/message.hpp:157-213 | a frame reads back, whatever follows it |
| Codec.EncodeOfReadMessage | src/securecnet/include/securecnet/message.hpp:182-213 | what was read encodes to the bytes it was read from |
| Codec.ReadAllOfEncodeAll | src/securecnet/lib/client.cpp:1144-1163 | any list of frames parses back to itself |
| Codec.ReadNumberedOfEncode | src/securecnet/include/securecnet/reliability.hpp:48-160 | the reliable, ordered and sequenced envelopes read back |
| Codec.EncodeOfReadNumbered | src/securecnet/include/securecnet/reliability.hpp:67-84 | an envelope that was read encodes to its bytes, and its number is not 0 |
| Codec.AckRoundTrip | src/securecnet/include/securecnet/reliability.hpp:162-192 | an ack is accepted exactly when it encodes a reliable channel and a non-zero id |
| Codec.ParseOfPack | src/securecnet/lib/packet.cpp:72-145 | what was packed parses back to the same header and payload, in at most 1300 bytes |
| Codec.PackOfParse | src/securecnet/lib/packet.cpp:116-145 | a datagram that parses re-encodes to itself |
| Datagrams.DatagramRoundTrip | src/securecnet/lib/client.cpp:378-440 | any unit of any application message builds into a datagram of at most 1300 bytes, which parses to the session's conn_id and packet number, and whose decrypted payload is one frame with the message's channel, type and number and the unit's bytes |
| Datagrams.FrameReadsBack | src/securecnet/lib/client.cpp:1014-1142 | the frame of a unit reads back to that channel, type, number and bytes |
| Datagrams.PiecesAreThePayload | src/securecnet/lib/client.cpp:592-606 | the bytes of all units put end to end are the payload |
| Wire.WriteMessage | src/securecnet/include/securecnet/message.hpp:157-180 | succeeds if and only if the payload is within the limit and there is room, and then appends the encoding of `Codec.ReadMessageOfEncode` |
| Wire.ReadFrame | src/securecnet/include/securecnet/message.hpp:182-213 | field after field computes `Codec.ReadMessage` and leaves what follows the frame |
| Wire.WriteNumbered | src/securecnet/include/securecnet/reliability.hpp:48-65 | succeeds if and only if the number is not 0, the bytes are within the mode's limit and there is room, and then appends the envelope |
| Wire.ReadEnvelope | src/securecnet/include/securecnet/reliability.hpp:67-84 | computes `Codec.ReadNumbered` and takes all that is left |
| Wire.WriteAck | src/securecnet/include/securecnet/reliability.hpp:162-172 | succeeds if and only if the channel is reliable, the id is not 0 and there is room, and then appends the encoding |
| Wire.ReadReceipt | src/securecnet/include/securecnet/reliability.hpp:174-192 | computes `Codec.ReadAck` |
| Wire.WritePacketHeader | src/securecnet/lib/packet.cpp:34-51 | the seven fields appended are the 28 bytes of the header, or there is no room |
| Wire.ReadPacketHeader | src/securecnet/lib/packet.cpp:53-70 | the seven fields read are those of the header |
| Wire.PackInto | src/securecnet/lib/packet.cpp:72-114 | fills the buffer with the datagram of `Codec.ParseOfPack`, or gives its error |
| Wire.Parse | src/securecnet/lib/packet.cpp:116-145 | computes `Codec.ParsePacket` |
| Bytes.UnpackOfPack | src/securecnet/lib/bytebuf.cpp:26-155 | fields written one after another read back, whatever follows |
| Bytes.PackOfUnpack | src/securecnet/lib/bytebuf.cpp:83-155 | fields that were read write back to the same bytes |
| Bytes.ByteWriter.WriteU8 | src/securecnet/lib/bytebuf.cpp:26-33 | appends the byte, or nothing when there is no room |
| Bytes.ByteWriter.WriteU16 | src/securecnet/lib/bytebuf.cpp:35-43 | appends two bytes, high byte first, or nothing |
| Bytes.ByteWriter.WriteU32 | src/securecnet/lib/bytebuf.cpp:45-55 | appends four bytes, high byte first, or nothing |
| Bytes.ByteWriter.WriteU64 | src/securecnet/lib/bytebuf.cpp:57-65 | the shifting loop appends eight bytes, high byte first, or nothing |
| Bytes.ByteWriter.WriteBytes | src/securecnet/lib/bytebuf.cpp:67-81 | appends the bytes, or nothing |
| Bytes.ByteReader.ReadU8 | src/securecnet/lib/bytebuf.cpp:83-90 | takes one byte off the rest, or nothing |
| Bytes.ByteReader.ReadU16 | src/securecnet/lib/bytebuf.cpp:92-100 | takes two bytes off as a number, or nothing |
| Bytes.ByteReader.ReadU32 | src/securecnet/lib/bytebuf.cpp:102-113 | takes four bytes off as a number, or nothing |
| Bytes.ByteReader.ReadU64 | src/securecnet/lib/bytebuf.cpp:115-126 | the loop takes eight bytes off as a number, or nothing |
| Bytes.ByteReader.ReadBytes | src/securecnet/lib/bytebuf.cpp:128-155 | takes the bytes off, or nothing |
| Hello.TranscriptInjective | src/securecnet/lib/client.cpp:55-92 | equal transcripts mean equal hellos: every key, nonce, token, flag and connection id, with optional tokens in between |
| Hello.ClientHelloExact | src/securecnet/include/securecnet/protocol.hpp:184-244 | read_client_hello accepts exactly the encodings of well-formed hellos with an acceptable token |
| Hello.ServerHelloExact | src/securecnet/include/securecnet/protocol.hpp:268-322 | read_server_hello accepts exactly the encodings of well-formed hellos with a non-zero connection id |
| Hello.RetryExact | src/securecnet/include/securecnet/protocol.hpp:246-266 | read_retry accepts exactly the encodings of retry tokens |
| Hello.HelloBuffersSuffice | src/securecnet/lib/server.cpp:711-728 | the fixed buffers of 128, 192 and 320 bytes are never too small |
| Handshake.ClientAgreement | src/securecnet/lib/client.cpp:1183-1264 | in every run with any number of clients and sessions, where handshake messages are replayed, dropped, reordered and rewritten but tags are not forged, and both sides close, fail or time out at any moment: a client that ever accepted did so with a session that recorded its own key, nonce and tokens, and while it is Established it holds that session's conn_id, not 0, and the mirrored keys |
| Handshake.ServerAgreement | src/securecnet/lib/server.cpp:1772-1818 | an Established session has a client that accepted the answer built for that session and encrypted its finishing packet under the mirrored keys, whatever became of that client since |
| Handshake.FinishAfterClose | src/securecnet/lib/client.cpp:1537-1553 | that client need not be Established any more: a run in which the session becomes Established after its client closed |
| Handshake.AgreementIsOneToOne | src/securecnet/lib/server.cpp:689-734 | no two clients agree with one session and no client with two |
| Handshake.AnswerAcceptedIff | src/securecnet/lib/client.cpp:1205-1234 | a client accepts the answer built for a session if and only if the session recorded its current offer |
| Handshake.VerifiedMeansAgreed | src/securecnet/lib/server.cpp:689-734 | a hello whose tag verifies was built for a session that recorded exactly this client's offer |
| Handshake.HandshakeCompletes | src/securecnet/lib/server.cpp:1654-1749 | in every world, whatever came before, three deliveries complete a handshake by a retry or by a resumption token: the client's present hello, the answer to it and the finishing packet; both sides are then Established and agree |
| Handshake.OwnAnswerAccepted | src/securecnet/lib/server.cpp:1707-1710 | a client accepts the answer to a session admitted from its own hello, by either token, and its finishing packet is the one this session waits for |
| Handshake.LastRetryIsOffered | src/securecnet/lib/client.cpp:1165-1181 | after a Retry a client in its handshake offers exactly its token, whichever it had before, with its own key and nonce and without a resumption token |
| Handshake.SealedMoves | src/securecnet/lib/server.cpp:1772-1861 | in every run an encrypted packet establishes a session in its handshake if and only if a client that agrees with this session sealed it; any other one sends a session that is not Closed to Closing |
| Connection.RunIsOk | src/securecnet/lib/client.cpp:1376-1553 | in every reachable client state Established means keys and a non-zero conn_id, Closed means no keys and an empty queue with byte count 0, and the count is the size of the queue |
| Connection.RunGoesForward | src/securecnet/lib/client.cpp:174-192 | between one connect or stop and the next the state only moves forward |
| Connection.StepGoesForward | src/securecnet/lib/client.cpp:1266-1285 | no step goes back, and Established is entered only from Handshaking on a server hello that verified |
| Connection.HarmlessExactly | src/securecnet/lib/client.cpp:1287-1374 | an Established client stays so on a packet if and only if it is encrypted, of this conn_id, decrypts, has a number other than 0, and is a replay, raw, a keepalive, or a message whose frames are in order; otherwise it is Closed |
| Connection.HandshakeCloses | src/securecnet/lib/client.cpp:1266-1285 | once the handshake is over every handshake packet closes the connection |
| Connection.SecondHelloCloses | src/securecnet/lib/client.cpp:1266-1285 | the server hello that established the connection, delivered a second time, closes it |
| Connection.StaysIffSafe | src/securecnet/lib/client.cpp:1376-1515 | an Established client is still Established after a step if and only if the step is a harmless packet, queueing, flushing, or housekeeping within the idle timeout |
| Connection.StaysEstablishedIff | src/securecnet/lib/client.cpp:1376-1515 | between restarts of any run an Established client is still Established if and only if every step in between was such a step |
| Connection.NoncesNeverRepeat | src/securecnet/lib/client.cpp:392-414 | no two packets ever encrypted under the same keys have the same nonce |
| Connection.QueueKeeps | src/securecnet/lib/client.cpp:378-440 | queueing changes no state, and an encrypted packet takes a number unused under these keys |
| Connection.QueueFailsOnlyWhenFull | src/securecnet/lib/client.cpp:378-440 | a payload within the limit fails only on a full queue, and its datagram is at most 1300 bytes and parses back |
| Connection.ClientConnection.Queue | src/securecnet/lib/client.cpp:378-440 | number, nonce, packing and insertion compute `Connection.QueuePacket`; its only failure for a fitting payload is `Connection.QueueFailsOnlyWhenFull` |
| Connection.ClientConnection.Enqueue | src/securecnet/lib/client.cpp:360-376 | the insertion loop puts the packet behind its own priority and adds its size, or the queue is full |
| Connection.ClientConnection.FailConnection | src/securecnet/lib/client.cpp:254-276 | clears queue and keys and closes, which leaves the connection in order |
| Connection.ClientConnection.Connect | src/securecnet/lib/client.cpp:278-333 | resets, queues the first hello and is Handshaking, whether or not it could be queued |
| Connection.ClientConnection.Stop | src/securecnet/lib/client.cpp:352-358 | resets everything |
| Connection.ClientConnection.HandleServerHello | src/securecnet/lib/client.cpp:1183-1264 | keys, the hello's conn_id and the finishing keepalive: Established on success, Closed when the keepalive cannot be queued, no change when the tag does not verify |
| Greetings.IdIsLastHello | src/securecnet/lib/client.cpp:1236 | in every run the connection id is that of the last ServerHello that verified since the last connect, an Established client has one, and every packet encrypted under the present keys bears it |
| Greetings.LaterPackets | src/securecnet/lib/client.cpp:362-440 | in every run whatever an Established client queues parses to an encrypted packet of that kind, under the id of that hello and the next number |
| Greetings.HelloAnswered | src/securecnet/lib/client.cpp:1229-1264 | a ServerHello that verifies makes the client Established under its conn_id and queues a packet that parses to an encrypted keepalive with that id and the next number |
| Greetings.ConnectGreets | src/securecnet/lib/client.cpp:290-333 | connect() queues a packet that parses to an unencrypted handshake packet without an id, number 1 |
| Greetings.RetryGreets | src/securecnet/lib/client.cpp:1165-1181 | a Retry in the handshake is answered with a packet that parses to another unencrypted handshake packet, under the next number |
| Greetings.QueuedPacket | src/securecnet/lib/client.cpp:362-440 | queue_packet with room puts one packet where its priority belongs, and it parses back to the kind, flag, id, number and body asked for |
| Greetings.ServerHelloSame | src/securecnet/lib/client.cpp:1183-1264 | the connection and the client of the key agreement do the same with every ServerHello: same state, same conn_id, keys or none, when `verified` is the tag test |
| Greetings.RetrySame | src/securecnet/lib/client.cpp:1165-1181 | and with every Retry |
| Greetings.SilenceSinceLastHeard | src/securecnet/lib/client.cpp:1321-1343 | in every run the silence that the idle timeout measures began with the last new packet of the session, or the hello; replays and packets that do not decrypt do not count |
| Greetings.QuietSinceLastSent | src/securecnet/lib/client.cpp:793-836 | in every run the keepalive interval and the drain are measured from the last flush that sent something |
| Greetings.HandshakeEnds | src/securecnet/lib/client.cpp:1266-1285 | for every handshake packet a client in its handshake can get: whether it is then Handshaking, Established or Closed |
| Greetings.PacketEnds | src/securecnet/lib/client.cpp:1287-1426 | for every other packet: it ends a client without keys, whatever it holds; with keys it is harmless, and changes at most the time of the last reception, or ends it |
| Greetings.UserClosePacket | src/securecnet/lib/client.cpp:1537-1553 | close() with room queues a packet that parses to a close, encrypted if and only if the client is Established or Closing, and leaves it Closing |
| Timers.ClientPhase | src/securecnet/lib/client.cpp:1470-1515 | the client's state after housekeeping, for every state and clock: when each timeout and the drain apply, and what a clock that went back does |
| Timers.ClientPacket | src/securecnet/lib/client.cpp:1470-1515 | the packet it queues: a close for a silent peer, a keepalive if and only if one is due, no other |
| Timers.PeerTurn | src/securecnet/lib/server.cpp:2066-2098 | the same for a session of the server, with the numbers it spends, and the reassemblies it keeps are exactly those updated within the timeout |
| Timers.PeerStep | src/securecnet/lib/server.cpp:1772-1861 | every other step on a session of the server: its state, the packet number it spends if any, and the times, for packets, closes from either side and sends |
| Timers.SameReassembly | src/securecnet/lib/server.cpp:1417-1453 | the server's check of its total reassembly memory is the `roomy` of `Inbound.HandleFragment`, with the same reassembler afterwards and every other session untouched |
| Connection.ClientConnection.HandleHandshakePacket | src/securecnet/lib/client.cpp:1266-1285 | every branch of handle_handshake_packet with its error; the state never goes back, and outside Handshaking the connection is Closed |
| Connection.ClientConnection.HandlePacket | src/securecnet/lib/client.cpp:1376-1426 | which packets are ignored, accepted or end the connection; an Established client stays so exactly on the packets of `Connection.HarmlessExactly` |
| Connection.ClientConnection.HandleSecurePacket | src/securecnet/lib/client.cpp:1287-1374 | the checks in the order of the code, a close packet and the frames' verdict |
| Connection.ClientConnection.Close | src/securecnet/lib/client.cpp:1537-1553 | nothing when Idle or Closed, otherwise a close packet and Closing, or Closed when it cannot be queued |
| Connection.ClientConnection.RunHousekeeping | src/securecnet/lib/client.cpp:1470-1515 | timeouts, keepalive and drain, none of which takes the state back |
| Nonces.NonceInjective | src/securecnet/lib/crypto.cpp:111-118 | the 24 bytes determine conn_id and sequence number |
| Nonces.MakePacketNonce | src/securecnet/lib/crypto.cpp:111-118 | the two loops fill the array with zeros, conn_id and sequence number |
| SessionTable.RunIsOk | src/securecnet/lib/server.cpp:1654-1749 | in every reachable server state _sessions and _endpoint_to_conn are inverse to each other, conn_ids are non-zero, the table and each host stay within their limits, each reassembler within its quota, and all of them together within the server's |
| SessionTable.RegisterOk | src/securecnet/lib/server.cpp:1654-1749 | a client hello keeps all of that, whichever branch it takes |
| SessionTable.HelloSparesIff | src/securecnet/lib/server.cpp:1612-1680 | an Established session survives a further client hello from its endpoint if and only if that hello shows two tokens or no good one, comes from a banned or limited address, or the table or its host is at the limit |
| SessionTable.SecondCopyReplaces | src/securecnet/lib/server.cpp:1612-1680 | for every hello that is neither banned nor limited and shows one token, a good one: a run in which it makes a session, the client's first packet establishes it, and a second copy of that hello replaces it |
| SessionTable.TakeFragmentOk | src/securecnet/lib/server.cpp:1417-1453 | a fragment for any session keeps all of that |
| SessionTable.RunGoesForward | src/securecnet/lib/server.cpp:1931-1945 | over a whole run a session never moves back, and an evicted one never returns |
| SessionTable.ChangeForward | src/securecnet/lib/server.cpp:1772-1861 | every packet, close, timeout and keepalive moves a session forward, and Established comes only from Handshaking |
| SessionTable.NoncesNeverRepeat | src/securecnet/lib/server.cpp:736-795 | no two packets ever encrypted for one session have the same nonce |
| SessionTable.SessionServer.EvictSession | src/securecnet/lib/server.cpp:1947-1963 | removes the session and its index entry |
| SessionTable.SessionServer.EvictStaleSessions | src/securecnet/lib/server.cpp:1965-1982 | the two loops remove exactly the closed and drained sessions |
| SessionTable.SessionServer.FindStale | src/securecnet/lib/server.cpp:1969-1979 | the first loop finds exactly the closed and drained sessions, each once |
| SessionTable.SessionServer.CountForHost | src/securecnet/lib/server.cpp:1663-1669 | the loop counts the sessions of a host |
| SessionTable.SessionServer.TotalReassemblyMemory | src/securecnet/lib/server.cpp:479-486 | the loop sums the memory of all reassemblers |
| SessionTable.SessionServer.AllocateConnId | src/securecnet/lib/server.cpp:1984-1995 | the first random value that is neither 0 nor taken |
| SessionTable.SessionServer.HandleClientHello | src/securecnet/lib/server.cpp:1612-1749 | screening, eviction, limits, replacement and insertion compute `SessionTable.OnHello`, which keeps the table (`SessionTable.RegisterOk`) and adds a session exactly as `Admission.HelloAddsIff` says |
| Admission.HelloAddsIff | src/securecnet/lib/server.cpp:1612-1749 | a client hello adds a session if and only if it does not show both tokens, is neither banned nor limited, has a good retry token, or a good resumption token with resumption on, both limits leave room among the sessions that are not stale, a draw is free, and the answer was queued |
| Admission.TurnedAwayUnchanged | src/securecnet/lib/server.cpp:1612-1651 | every other hello leaves the table as it is, with the verdict of its case: malformed, ignored, cookie expired, or asked to retry |
| Admission.LimitVerdict | src/securecnet/lib/server.cpp:1654-1676 | which limit stops an admissible hello, counted over the sessions that are not stale; then only the stale ones are gone |
| Admission.PlacedVerdict | src/securecnet/lib/server.cpp:1678-1749 | past the limits the older session of the endpoint is gone, and the first draw that is neither 0 nor taken is the new session, unless there is none or the answer was not queued |
| Admission.HelloLeaves | src/securecnet/lib/server.cpp:1678-1749 | the new session starts its handshake now under the next peer id, with nothing sent or reassembled, and its endpoint leads to it; every other session is as it was |
| SessionTable.SessionServer.HandleFragment | src/securecnet/lib/server.cpp:1417-1453 | the memory check and the reassembler call compute `SessionTable.TakeFragment`, which keeps the shared limit (`SessionTable.TakeFragmentOk`) |
| SessionTable.SessionServer.CloseSession | src/securecnet/lib/server.cpp:1931-1945 | Closing with a numbered packet, or Closed; the table stays in order and the session never moves back |

## Left out

- UDP sockets, address resolution, endpoint formatting: operating-system input and output; an endpoint is a host and a port.
- The cryptographic primitives: ideal, as said above. Failures of key generation and key derivation are not modelled.
- How the server checks a retry or resumption token, and when it bans or limits an address: the outcomes are parameters (`SessionTable.Papers`, `Handshake.Step`); bans, per-address rate limits and anti-amplification counters: checked at queue time and counted at send time, so no whole-run bound follows.
- IoContext, AsyncClient, AsyncServer, LocalSession: threads around a queue.
- Routers, typed handlers, text and broadcast wrappers, the stream, request/reply and NAT helpers, logging, stats: they keep no state of the transport; each ends in a send() or begins with a delivery that is modelled.
- The overload of resend_due with a fixed delay, and the loss estimate in per mille.
- The server's copies of send, receive and dispatch: they are the client's with a session argument, except that a failing session goes to Closing and goes on dispatching frames and packets where the client stops; `Transport` goes on after a failure too, so its theorems cover both, while `Inbound.DispatchAll` stops at the failing frame as the client does.
- Liveness: that messages arrive in the end; the code does not promise it (see above).
- Transport.InvariantHolds: one direction of a connection, in which acknowledgements of the other may come at any time and for any id; both directions together are `Duplex.DirectionsAreRuns`.
- Budget.EarnsAtLeast: says nothing once the bucket was full, because the excess is lost; the upper bound of `Congestion.RunIsPaced` has no such condition.
- Transport.DataPacketsNeverFail: says when a run cannot fail; when a single unit fails it is `Landing.LandFailsIff`.
- Outbound.OutboundConnection.PumpReliable: the packets are queued after the pass over the session, not inside its callback; which of them found room is a parameter.
- Stalls.GoneStops: a unit that went out on some packet and is never retransmitted again may still be on its way, so nothing is said of it.
- Wire.WriteMessage: what a failing write leaves in the buffer is not stated, nor for the other writers.
- Sharing.RunIsSound: the anti-amplification counters that the flush updates are not modelled.
- Outbound.OutboundConnection.SendAll: sends inline messages through the same loop as fragments, as a loop of one round.
- Inbound.InboundConnection.AcceptPiece: the completion callback runs after the reassembler has removed the entry, not inside accept().
- Reassembly.FragmentReassembler.Accept: entries are values in a map, so the aliasing of the payload vector is not captured.
- Connection.RunIsOk: decoding, decryption and frame dispatch enter as the fields of `Connection.Incoming`; flush_pending is the number of packets that went out, its loop is `Pacing.SendQueue.FlushPending`.
- SessionTable.RunIsOk: run_housekeeping is one step for each session, in any order and possibly cut short; what the server sends is only numbered.
- Codec.AckRoundTrip: an ack that is too short and of a wrong channel is refused with either of the two error codes the reader can give.
