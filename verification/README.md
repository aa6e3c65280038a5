# Verified model of libclub

libclub is a two-layer protocol stack. The upper layer is the *hub*: it floods messages through a network of
nodes, orders them by a Lamport timestamp and commits them once everybody has acknowledged them, which gives a
totally ordered broadcast. The lower layer is the *socket*: reliable, ordered messages over UDP, with
fragmentation, acknowledgement windows and delay-based congestion control. This project models both layers, the
routing table and graph they use, and the rendezvous server's index, and proves what they guarantee.

## What is proved

The results build on one another, from the bytes of a packet up to agreement between hubs.

**Totally ordered broadcast, any run** (`HubOrder`, `HubGrowth`, `HubSteps`, `FuseCommits`, `ClockOverflow`). One hub
and any sequence of its handlers: local broadcasts, messages from peers, peers that join or fail, fuse commits,
discarded fuses, and callbacks that broadcast. The hub takes a gapless prefix out of its log in strictly increasing id
order. Hence the two guarantees documented for `total_order_broadcast` hold between any two hubs, however differently
their runs went, and the membership callbacks replay to the current configuration. All this is about runs in which the
32-bit clock has not overflowed. `ClockOverflow` bounds the clock by the highest timestamp heard and the number of
messages constructed, and proves that in all runs within a bound n the hub's own messages are in order and on time if
and only if n is below 2^32. A hub alone delivers exactly the first 2^32 - 1 payloads of its user, and nothing ever
after. `FuseCommits` says what the commit loop achieves: a fuse that its quorum acknowledged is installed if and only
if those of the quorum acknowledged the user data before it, so a peer that failed is no longer waited for; and user
data waits while anybody reported a predecessor that the hub lacks. `HubSteps` says which predecessor is reported,
whom a hub answers and what losing a peer means.

**Totally ordered broadcast, static membership** (`Flooding`, `StaticOrder`, `StaticRuns`, `StaticProgress`,
`Quiescence`, `Fusing`). Any connected network of hubs that committed the same configuration, joined by lossless FIFO
links, in any interleaving. When a hub commits a message it already has every message that anyone constructed, or will
ever construct, up to that timestamp. So nothing arrives late, the compacted set of seen messages never hides a
message, and of any two hubs' deliveries one is a prefix of the other, payloads included. And nothing gets stuck: once
nothing is under way, a hub that runs its commit loop has delivered everything anyone broadcast, and all hubs have
delivered the same sequence. Deliveries do run out, in whatever order they are made, so from every state of every run
everything that was broadcast can still be delivered everywhere. `Fusing` shows that the handlers lead there: two new
hubs that meet and hear each other reach a state from which these runs start.

**Reliable transport** (`AckSets`, `PartInfos`, `Fragments`, `CyclicQueues`, `TransmitQueues`, `Sockets`,
`ReliableTransport`, `TransportProgress`, `UnreliableMessages`, `WrapAround`). Two sockets over a network that loses,
repeats and reorders packets, with handlers that may send, receive again and transmit. However little room the packets
have, if it takes one byte of payload, fragments and retransmissions get everything across. What one side's handler
was given is a prefix of what the other side passed to `send_reliable`; a reliable message leaves the sender's queue
only after it was heard; unreliable messages are heard in the order sent; and from every state of every run everything
said can still be heard. All four hold until the 32-bit numbers run out, and `WrapAround` proves where that is: each
of them holds for all runs with up to n messages if and only if n stays below a bound, 2^32 for the first two, 2^32 +
1 for the third and 2^32 - 30 for the last, with a run that breaks it at the bound. An unreliable message whose
fragments arrive, in any order, is heard once, exactly when all of its bytes are there.

**Packets and congestion** (`Codec`, `Packets`, `Congestion`). What `encode_packet` writes, the peer's decoder reads
back from a receive buffer of one segment, if and only if it carries at most 355 acknowledgements. Assembling a packet
never raises the bytes in flight above the congestion window, the window stays within the bounds of section 2.4.2 of
RFC 6817, and the keep-alive alarm makes room for a whole segment however much was lost. The acknowledgements in a
packet header are characterised packet by packet: which packets stay in flight, which bytes count, and that a loss is
a gap in the numbers.

**The whole stack** (`Links`, `Stack`). The bytes of a packet carry what the transport's step put on the wire, and a
pair of sockets is the lossless FIFO link that the hubs assume. In a network of hubs whose links are such pairs, every
step of a socket is matched by moves of its hub, every move of a hub can be made by packets, and from every state
everything that was broadcast can still be delivered everywhere, over a network that loses, repeats and reorders
packets.

**Graphs and indexes** (`Graphs`, `Routing`, `Broadcasts`, `Rendezvous`). The routing tables that hubs calculate from
the same graph cover every reachable hub and cannot loop. After a fuse an unreliable broadcast gets to exactly those
who are reached along the neighbour lists of its acknowledgements. The rendezvous server's two maps are exact
inverses, nobody waits who could be matched, and matched clients are told what the other one sent.

## How the model is built

Code that changes state step by step is a class (`Hub`, `Log`, `SeenMessages`, `Socket`, `TransmitQueue`,
`QualityOfService`, `AckSet`, `PartInfo`, ...) with loops and `modifies` clauses. Where a protocol is built on such
a class, every method is proved equal to a function on values, and the protocol is a state machine over these
functions.

- A node's uuid is a natural number, which gives the total order the code needs.
- Each asio handler is one atomic step. User callbacks are recorded events. What callbacks do is a finite script that
  each step is given, so it ranges over all behaviours that terminate: a hub's callbacks broadcast, a socket's send
  reliably or unreliably, receive again in either way and start a packet.
- `HubState` and `Endpoint` also record history: what was constructed, received, consumed, delivered.
- 32-bit sequence numbers of messages, packets and `AckSet` wrap as in the code. The hub's clock wraps too, and a flag
  remembers that it did.
- Ordered containers are sets, maps or sequences taken in key order.
- Times and the choice of what the network does are parameters of steps.

Where code and documentation differ, the model follows the code. `AckSet` is documented as a set of received
numbers, but the unsigned `highest - 31` makes it inexact below 31. `AckSets.ExactIff` and `AckSets.AddedRecords`
give the exact conditions, `AckSets.SmallNumbersAreInexact` gives a witness, and the `InOrder` lemmas show that
the way the socket uses it is safe up to 2^32 - 31, where the window stops accepting. Sockets are documented as
reliable and ordered without a limit; the `WrapAround` lemmas show the limit the code has.

`dafny verify dfyconfig.toml` checks the whole project.

## Model

| member | source | states |
|---|---|---|
| `Stack.NothingIsLostInTheStack` | include/club/socket.h:378-586 | from every carried state of every run of hubs over sockets, packets sent at any given pace and hubs that handle what they hear are enough to deliver at each member exactly what anyone broadcast, unless a clock overflows or a connection runs out of numbers |
| `Stack.EveryRunIsCarried` | src/club/hub.cpp:682-705 | every run of hubs over lossless FIFO links can be made over sockets, by packets that leave room for one byte of payload, while the windows can count the messages |
| `Stack.SocketStep` | src/club/hub.cpp:400-448 | whatever happens at a socket short of being given more to say is matched by its hub handling the next messages of the link, with what it then sends said on its connections |
| `Quiescence.NothingIsLost` | src/club/hub.cpp:400-598 | every run has a continuation by deliveries alone after which, unless a clock overflowed, each member that runs its commit loop has delivered exactly what anyone broadcast in the run |
| `Quiescence.ComesToRest` | src/club/hub.cpp:400-448 | every run can be continued by deliveries alone, broadcasting nothing, until nothing is under way or a clock overflows |
| `Quiescence.DeliveryPays` | src/club/hub.cpp:682-705 | whichever message is delivered next, forwarding and acknowledging it leaves less to be done than before, so flooding terminates |
| `StaticProgress.EverythingIsDelivered` | src/club/hub.cpp:482-598 | in every run of a static network, once nothing is under way, a hub that runs its commit loop has delivered every payload anyone broadcast under its id, and nothing else, and its log is empty |
| `StaticProgress.EveryoneAgrees` | src/club/hub.cpp:400-598 | once nothing is under way, any two hubs that run their commit loops have delivered the same payloads in the same order |
| `StaticProgress.EntryIsAcked` | src/club/hub.cpp:324-327 | with nothing under way, every member's acknowledgement of a logged message is with its entry: none is lost between receipt, flooding and the pending table |
| `StaticProgress.NotBlocked` | src/club/hub.cpp:557-574 | with nothing under way, the predecessor guard does not hold the front entry back |
| `StaticProgress.RunBusy` | src/club/hub.cpp:289-327 | in every run, each hub answered all user data it received, recorded every acknowledgement it made or received, and all reported predecessors are existing messages |
| `StaticRuns.DeliveriesArePrefixes` | src/club/hub.cpp:482-598 | in every run of a static network, of any two hubs' delivered sequences, with payloads, one is a prefix of the other |
| `StaticRuns.CommittedIsComplete` | src/club/hub.cpp:482-598 | a hub that committed up to some time has every message with a timestamp up to it that any member constructed or will construct in any continuation of the run |
| `StaticRuns.NothingIsLate` | src/club/hub.cpp:607-626 | no message is ever rejected for being at or below the last committed id |
| `StaticRuns.SeenNeverHides` | src/club/seen_messages.h:55-84 | after any compactions, a member's message counts as seen if and only if it was received |
| `StaticRuns.FloodingGuarantee` | src/club/hub.cpp:400-448 | first receipts of one poster come in timestamp order, nobody receives their own message, a copy under way never visited its destination and everyone it visited has the message |
| `StaticRuns.ConsumedIsExact` | src/club/hub.cpp:482-598 | what a hub consumed is exactly what anyone broadcast up to its last committed id |
| `StaticRuns.RunKeeps` | src/club/hub.cpp:400-448 | every move of every run keeps the invariant that relates each hub to the whole network |
| `StaticRuns.StartExists` | src/club/hub.cpp:366-397 | every connected network, of any number of hubs, has a state with the joint configuration installed from which these runs start |
| `Fusing.TwoHubsReachStart` | src/club/hub.cpp:179-448 | two new hubs that meet and hear exactly what the other sends commit one configuration and reach such a state; only the record of what happened before is dropped |
| `StaticOrder.QuorumIsEverybody` | src/club/log_entry.h:87-103 | an entry acknowledged by its live quorum is acknowledged by every member, because the quorum is closed under the neighbour lists, so the hub has heard everyone up to it |
| `StaticOrder.SeenIsExact` | src/club/hub.cpp:410-422 | the duplicate test of the receive handler is right for every genuine message |
| `StaticOrder.NotLate` | src/club/log.h:67-75 | a message the hub does not have lies above everything it consumed and is not in its log |
| `StaticOrder.CommitFine` | src/club/hub.cpp:482-598 | the commit loop keeps everything the hub knows about the network and delivers whatever it consumes |
| `StaticOrder.HearFine` | src/club/hub.cpp:400-448 | handling the next message of a link, duplicate or not, keeps everything the hub knows about the network |
| `Flooding.PostKeepsFlood` | src/club/hub.cpp:682-705 | broadcasting a new message keeps the flooding invariant: coverage, per-poster order on links and receipts, honest visited sets |
| `Flooding.AcceptKeepsFlood` | src/club/hub.cpp:400-448 | a first receipt, forwarded to linked members not yet visited, keeps the flooding invariant |
| `Flooding.SkipKeepsFlood` | src/club/hub.cpp:417-420 | ignoring a duplicate keeps the flooding invariant |
| `Flooding.ClosedIsEverybody` | src/club/hub.cpp:774-796 | in a connected network a non-empty set of members closed under neighbours is everybody |
| `HubOrder.ConsumedIsGaplessPrefix` | src/club/hub.cpp:509-597 | in any run of a hub, what left the log is, in increasing id order, everything that ever entered it up to the last committed id; the rest is above |
| `HubOrder.SameOrderEverywhere` | include/club/hub.h:120-125 | two messages delivered at two hubs are delivered in the same order, whatever the two runs were |
| `HubOrder.SenderOrderEverywhere` | include/club/hub.h:126-128 | what a hub sent first is delivered first wherever both messages are delivered |
| `HubOrder.MembershipReplay` | src/club/hub.cpp:345-397 | folding all insert and remove callbacks from the hub alone gives the latest configuration, which is the node set of the routing graph |
| `HubOrder.GuardMeaning` | src/club/hub.cpp:557-574 | the backwards scan over predecessors blocks the front entry exactly when its configuration is known and some reported predecessor is not consumed yet |
| `FuseCommits.FuseIsCommittedIff` | src/club/hub.cpp:482-598 | the greatest fuse that everybody of its quorum acknowledged is committed if and only if the user data before it is acknowledged by everyone of its own quorum who is in that quorum; then everything before it is consumed, the quorum is the configuration, and who left is forgotten |
| `FuseCommits.UnackedStays` | src/club/hub.cpp:521-556 | user data that someone of that quorum has not acknowledged stays in the log with everything behind it, and so does every greater fuse |
| `FuseCommits.WithoutFuseStays` | src/club/hub.cpp:488-556 | without such a fuse every fuse waits, and so does user data that a member of the latest configuration has not acknowledged |
| `FuseCommits.WithoutFuseCommits` | src/club/hub.cpp:521-594 | and user data before any fuse that the members acknowledged is committed |
| `FuseCommits.ReportHoldsBack` | src/club/hub.cpp:557-574 | user data whose configuration is known stays in the log while anybody who acknowledged it reported an id before it that the hub has neither consumed nor in its log |
| `FuseCommits.CommittedIsSeen` | src/club/hub.cpp:576-594 | whatever posters that are still known sent up to the time of a committed message counts as seen |
| `HubSteps.RunReports` | src/club/hub.cpp:642-679 | in every run each message reports as predecessor the id that stood immediately before the acknowledged one in the log when it was constructed, or the default id |
| `HubSteps.LosesPeer` | src/club/hub.cpp:281-286 | the fuse posted when a peer is lost has the remaining neighbours and not the peer, and nothing more is sent to the peer |
| `HubSteps.FuseIsAnsweredIff` | src/club/hub.cpp:294-314 | a fuse heard for the first time is acknowledged if and only if the log holds no greater one |
| `HubSteps.DataIsAnswered` | src/club/hub.cpp:324-327 | user data heard for the first time is acknowledged |
| `HubOrder.CommittedFuseQuorum` | src/club/hub.cpp:330-342 | for a fuse that installs a configuration, the quorum, the ackers and the nodes of the new graph are one set, closed under edges |
| `HubOrder.AcksGraphClosed` | src/club/hub.cpp:330-342 | every edge of the graph made from acknowledgements ends at one of its nodes, as the routing tables need |
| `HubOrder.PostedMessagesAreWellFormed` | src/club/hub.cpp:642-679 | everything a hub constructs meets what the runs assume of received messages |
| `ClockOverflow.OnTimeIff` | src/club/hub.cpp:607-665 | in all runs whose highest timestamp heard and number of messages constructed add up to at most n, a hub's own ids increase and none of its messages is rejected as late, if and only if n is below 2^32 |
| `ClockOverflow.LoneHubDelivers` | src/club/hub.cpp:482-665 | a hub alone delivers exactly the first 2^32 - 1 payloads its user broadcasts, in order; all others are rejected as late, and nothing is delivered ever after |
| `ClockOverflow.RunTicks` | src/club/hub.cpp:629-640 | in every run the clock is at most the highest timestamp heard plus the number of messages constructed, and has not overflowed while that sum is below 2^32 |
| `HubGrowth.DoGrows` | src/club/hub.cpp:629-705 | every handler, with any broadcasts made by its callbacks, takes nothing back from what was handed to a socket, sends only to connected peers, reports right predecessors and ticks once for each message it constructs |
| `HubOrder.DoKeeps` | src/club/hub.cpp:179-448 | every handler, with any broadcasts made by its callbacks, keeps the hub's invariant |
| `HubOrder.LoopKeeps` | src/club/hub.cpp:509-597 | the commit loop, which erases while it iterates, keeps the hub's invariant and its iterator at the front of the log |
| `HubOrder.RunInv` | src/club/hub.cpp:160-176 | a new hub satisfies the invariant and so does every hub reached from it |
| `HubObjects.Hub.constructor` | src/club/hub.cpp:160-176 | a new hub is alone in its first configuration |
| `HubObjects.Hub.Announce` | src/club/hub.cpp:642-665 | constructing, flooding and logging an ackable message changes the hub as the specification says |
| `HubObjects.Hub.Acknowledge` | src/club/hub.cpp:667-679 | an acknowledgement is constructed, applied to the hub's own log and flooded |
| `HubObjects.Hub.ConnectedPeers` | src/club/hub.cpp:774-796 | the neighbour list is the hub and exactly the connected nodes |
| `HubObjects.Hub.Flood` | src/club/hub.cpp:682-705 | every connected peer the message has not visited, and nobody else, gets one more copy |
| `HubObjects.Hub.AddEntry` | src/club/hub.cpp:607-626 | late messages other than fuses are rejected, late fuses are ignored, all others enter the log |
| `HubObjects.Hub.IsBlocked` | src/club/hub.cpp:557-574 | the reverse scan computes the guard that `GuardMeaning` characterises |
| `HubObjects.Hub.FindCommittableFuse` | src/club/hub.cpp:488-494 | the search from the end finds the greatest fuse whose quorum acknowledged it |
| `HubObjects.Hub.JudgeEntry` | src/club/hub.cpp:521-574 | stop, discard or commit, decided as by the commit loop's branches |
| `HubObjects.Hub.CommitOne` | src/club/hub.cpp:576-594 | a committed entry leaves the log before its callbacks run |
| `HubObjects.Hub.InstallFuse` | src/club/hub.cpp:366-397 | a fuse acknowledged by its quorum becomes the configuration, lost nodes are forgotten, both differences are reported |
| `HubObjects.Hub.Install` | src/club/hub.cpp:366-386 | graph, routing table and configuration are replaced and lost nodes dropped; both differences to the previous configuration are computed |
| `HubObjects.Hub.CommitAll` | src/club/hub.cpp:482-598 | the loop with its iterator saved before each erasure refines the recursive commit loop, and terminates |
| `HubObjects.Hub.ProcessMessage` | src/club/hub.cpp:288-327 | acknowledgements, fuses and user data change the hub as the specification says |
| `HubObjects.Hub.Receive` | src/club/hub.cpp:400-448 | the receive handler changes the hub as the specification says, for duplicates, own messages and first receipts |
| `HubObjects.Hub.FuseWith` | src/club/hub.cpp:214-250 | joining a peer logs and floods a fuse, reports it and commits; the hub's own id is refused |
| `HubObjects.Hub.LosePeer` | src/club/hub.cpp:281-286 | losing a peer logs and floods a fuse and commits |
| `Logs.InsertEntryValid` | src/club/log.h:62-114 | insertion keeps quorum closure, the chain of predecessors from the last committed id, what ackers reported recorded, and all keys above it |
| `Logs.ApplyAckValid` | src/club/log.h:117-132 | applying an acknowledgement, now or later, keeps these invariants |
| `Logs.InsertEntryFrame` | src/club/log.h:98-113 | a new entry has exactly the acknowledgements that waited for it and its poster's own; other entries change only in predecessors |
| `Logs.Log.Add` | src/club/log.h:62-114 | insertion with linking, pending acknowledgements and own acknowledgement does what the specification says |
| `Logs.Log.AddAck` | src/club/log.h:117-132 | the acknowledgement is with its entry or waits for it |
| `Logs.Log.GetPredecessorTime` | src/club/log.h:135-144 | the entry below the given id with no entry between them or, if there is none below it, the default id |
| `Logs.Log.FindHighestFuse` | src/club/log.h:147-156 | the reverse search finds the greatest fuse id, if there is one |
| `Seen.InsertDenotes` | src/club/seen_messages.h:43-51 | insertion adds exactly one id to the denoted set, below the bottom or not |
| `Seen.CompactionDenotes` | src/club/seen_messages.h:71-84 | compaction adds exactly the ids of known posters up to the timestamp |
| `Seen.ForgetDenotes` | src/club/seen_messages.h:88-90 | forgetting removes exactly one poster's ids |
| `Seen.SeenMessages.Has` | src/club/seen_messages.h:55-67 | the query answers membership in the denoted set |
| `Seen.SeenMessages.Compact` | src/club/seen_messages.h:71-84 | the loop raises every known poster's bottom |
| `MessageIds.BeforeIffLt` | src/club/message_id.h:39-47 | in an increasing sequence of ids position and id order agree |
| `MessageIds.BoundedSubsequenceIsPrefix` | src/club/message_id.h:39-47 | of two increasing sequences that agree up to a bound, the one bounded by it is a prefix of the other |
| `ReliableTransport.HeardIsPrefixOfSaid` | include/club/socket.h:441-506 | over a lossy, duplicating, reordering network, what a side heard is a prefix of what the other said, if that is fewer than 2^32 messages |
| `ReliableTransport.UnheardIsQueued` | include/club/transport/transmit_queue.h:59-109 | of fewer than 2^32 messages, every reliable one is still queued at its sender or was heard, so it leaves the queue only after it was heard |
| `ReliableTransport.AcknowledgedIsHeard` | include/club/transport/ack_set.h:165-171 | what the received window says is acknowledged was heard by the peer, of fewer than 2^32 messages |
| `ReliableTransport.UnreliableNeverReordered` | include/club/socket.h:510-546 | of up to 2^32 unreliable messages, those that are heard are whole, in the order sent, each at most once |
| `UnreliableMessages.PiecesAreHeard` | include/club/socket.h:510-546 | pieces of one unreliable message, in any order and repeated, make what is heard grow by exactly that message, once, if and only if together they hold all of its bytes, whatever the handler does |
| `UnreliableMessages.SentIsHeard` | include/club/socket.h:510-546 | however an unreliable message was cut, it is heard once when all its fragments arrived, in whatever order |
| `TransportProgress.EverythingIsHeard` | include/club/socket.h:378-586 | if at most 2^32 - 31 reliable messages were said, every run has a continuation by packets alone after which the peer has heard all of them, for every room that takes a byte of payload and every delay before a message is sent again |
| `TransportProgress.OneIsHeard` | include/club/socket.h:441-506 | and one after which it has heard exactly one message more, with the other direction as it was |
| `TransportProgress.PassComesCloser` | include/club/transport/transmit_queue.h:59-109 | every sending pass, however small its room, sends a queued message to its end or comes closer to that, wherever in the cyclic queue it is |
| `TransportProgress.AllGather` | include/club/socket.h:450-490 | handling a packet's fragments delivers the next message or adds exactly their bytes to those that are there, and what is then there is not yet complete |
| `TransportProgress.FirstIsKept` | include/club/socket.h:450-470 | the first fragment of a message that cannot be delivered yet is kept, with exactly its bytes, and nothing else changes |
| `TransportProgress.HandledDrains` | include/club/socket.h:474-490 | after a fragment is delivered or added, whatever handlers did, no complete next message waits while a handler is there |
| `WrapAround.PrefixIff` | include/club/socket.h:450-506 | what is heard is a prefix in all runs with up to n reliable messages if and only if n is below 2^32 |
| `WrapAround.KeptIff` | include/club/transport/transmit_queue.h:70-83 | no reliable message leaves the queue unheard in all runs with up to n of them if and only if n is below 2^32 |
| `WrapAround.OrderIff` | include/club/socket.h:510-546 | unreliable messages keep their order in all runs with up to n of them if and only if n is at most 2^32 |
| `WrapAround.HearableIff` | include/club/transport/ack_set.h:127-163 | in all runs with up to n reliable messages everything said can still be heard, at any given pace of packets, if and only if n is at most 2^32 - 31; beyond that, not in any way |
| `WrapAround.RepeatedAfterWrap` | include/club/socket.h:309-313 | a run with 2^32 reliable messages in which one is heard twice |
| `WrapAround.DroppedAfterWrap` | include/club/transport/transmit_queue.h:70-76 | a run in which the message numbered 0 leaves the queue as acknowledged although nothing was heard |
| `WrapAround.ReorderedAfterWrap` | include/club/socket.h:301-305 | a run with 2^32 + 1 unreliable messages in which one is heard before an older one |
| `WrapAround.StuckForever` | include/club/transport/ack_set.h:173-202 | once the window has reached its last number, whatever happens, nothing more is heard |
| `Links.BytesCarryPackets` | include/club/socket.h:397-409 | the peer reads from a receive buffer of one segment, with whatever was in it before, exactly the window and fragments that the sending step put on the wire |
| `Links.PacedPacketFits` | include/club/transport/packet.h:61-69 | a packet at a pace with the room of a segment fits that buffer |
| `Links.QueuedNumbersFit` | include/club/transport/out_message.h:89-110 | in every run the numbers of queued messages fit the width they are written in |
| `Links.LinkGrows` | src/club/hub.cpp:682-705 | messages handed to the socket are appended to the link |
| `Links.LinkAdvances` | include/club/socket.h:474-506 | any other step of the two sockets takes some number of messages from the link, the next ones and unchanged |
| `Links.LinkTakesOne` | include/club/socket.h:474-506 | as long as the window can count them, packets alone can take exactly the next message from the link |
| `Links.LinkDelivers` | include/club/socket.h:378-430 | or everything on it |
| `Links.LinkDecodes` | include/club/socket.h:494-506 | whoever can decode what was encoded gets the messages of the link in order, each once |
| `ReliableTransport.RunInv` | include/club/socket.h:378-430 | every step of every run keeps the invariant between sender, wire and receiver in both directions |
| `Sockets.Socket.Send` | include/club/socket.h:309-313 | a reliable message is queued under the next sequence number, which wraps |
| `Sockets.Socket.SendOnce` | include/club/socket.h:301-305 | an unreliable message is queued under the next number of its own |
| `Sockets.Socket.StartSendingPacket` | include/club/socket.h:550-586 | one sending pass over the queue, with the window if there are acknowledgements, is put on the wire |
| `Sockets.Socket.RunHandler` | include/club/socket.h:494-506 | whatever a called handler does, sending, receiving again or starting a packet, is done before the number of the message is acknowledged |
| `Sockets.Socket.HandleSyncMessage` | include/club/socket.h:441-446 | the first sync message, and no later one, fixes where the sequence numbers start |
| `Sockets.Socket.HandleReliableMessage` | include/club/socket.h:450-470 | a reliable fragment is delivered, stored or ignored as the specification says |
| `Sockets.Socket.ReplayPending` | include/club/socket.h:474-490 | the pass over the ordered pending messages delivers consecutive complete ones for as long as a handler is there |
| `Sockets.Socket.UserHandleReliable` | include/club/socket.h:494-506 | only with a handler is the message delivered; the handler is taken, does what it does, and then the number is acknowledged and used |
| `Sockets.Socket.HandleUnreliableMessage` | include/club/socket.h:510-546 | an unreliable fragment is delivered, starts, completes or is dropped as the specification says |
| `AckSets.AnyOrderExact` | include/club/transport/ack_set.h:127-171 | with a first number of at least 31, after any additions in any order, 32 bits answer membership in the unbounded accepted set exactly |
| `AckSets.ExactIff` | include/club/transport/ack_set.h:165-171 | `is_in` is exact if and only if the window has reached 31 or there is no gap |
| `AckSets.AddedRecords` | include/club/transport/ack_set.h:127-163 | one addition keeps the record lossless if and only if the number does not fall behind a window below 31 |
| `AckSets.SmallNumbersAreInexact` | include/club/transport/ack_set.h:165-171 | after 0 and 2, `is_in` claims 1 |
| `AckSets.InOrderNext` | include/club/transport/ack_set.h:127-163 | adding the next number in order succeeds, and gives the full window, if and only if the window is below 2^32 - 31 |
| `AckSets.InOrderFull` | include/club/transport/ack_set.h:173-202 | from there on every higher number is refused |
| `AckSets.InOrderAhead` | include/club/transport/ack_set.h:173-202 | before, up to 31 numbers ahead are accepted |
| `AckSets.InOrderIsIn` | include/club/transport/ack_set.h:165-171 | after 0 to n in order, exactly these are in, also in the copy sent to the peer |
| `AckSets.AckSet.CanAdd` | include/club/transport/ack_set.h:173-202 | the loop decides whether the number may be added |
| `AckSets.AckSet.TryAdd` | include/club/transport/ack_set.h:127-163 | succeeds exactly when `can_add` says so and then moves the window accordingly |
| `PartInfos.PartInfo.AddPart` | include/club/transport/part_info.h:48-80 | the range is merged with everything it overlaps or touches; intervals stay apart |
| `PartInfos.PartInfo.FindTouching` | include/club/transport/part_info.h:56-76 | starting just before the lower bound, the search finds the first touching interval if there is any |
| `PartInfos.PartInfo.Sanitize` | include/club/transport/part_info.h:83-89 | swallowing successors restores separation and covers the same positions |
| `PartInfos.JoinCorrect` | include/club/transport/part_info.h:48-80 | adding a range adds exactly its positions and keeps intervals strictly apart |
| `PartInfos.Canonical` | include/club/transport/part_info.h:48-89 | separated intervals are determined by what they cover |
| `PartInfos.UnionDeterminesMap` | include/club/transport/part_info.h:48-89 | after any additions the map depends only on the union of the ranges, not on order or repetition |
| `Fragments.OutMessage.Encode` | include/club/transport/out_message.h:89-155 | the next fragment is cut where the last one ended, a fully sent message starts over, and without room for a header nothing is sent |
| `Fragments.EmittedArePieces` | include/club/transport/out_message.h:89-110 | whatever the buffer sizes over any number of passes, every fragment is a true piece of the payload |
| `Fragments.EmittedSpan` | include/club/transport/out_message.h:140-155 | sending leaves no hole before the point it reached |
| `Fragments.PendingMessage.constructor` | include/club/transport/pending_message.h:49-57 | a pending message starts with what its first fragment brought |
| `Fragments.PendingMessage.UpdatePayload` | include/club/transport/pending_message.h:75-88 | the bytes are written in place and their range is marked |
| `Fragments.CompleteMeansWhole` | include/club/transport/pending_message.h:92-96 | a pending message is complete exactly when everything of a non-empty payload arrived, and then it is the payload |
| `Fragments.AnyArrivalReassembles` | include/club/transport/pending_message.h:75-96 | fragments in any order, repeated and overlapping, complete a message exactly when they span a non-empty payload, and give it back |
| `Fragments.SentIsReassembled` | include/club/transport/out_message.h:140-155 | however a message was cut and whatever order its fragments took, it is given back once all of them arrived |
| `CyclicQueues.Walk` | include/club/generic/cyclic_queue.h:114-180 | for any loop body: each element is visited at most once and in order, erased ones are gone, what was not visited stands ahead of what was passed |
| `CyclicQueues.Cycle.Advance` | include/club/generic/cyclic_queue.h:114-132 | advancing moves the element behind those already passed, with the end marker kept right |
| `CyclicQueues.Cycle.Erase` | include/club/generic/cyclic_queue.h:175-180 | erasing removes only the current element |
| `TransmitQueues.TransmitQueue.EncodePayload` | include/club/transport/transmit_queue.h:59-109 | the sending pass does what the specification says, and the byte count stays the sum of the queued sizes |
| `TransmitQueues.TransmitQueue.Insert` | include/club/transport/transmit_queue.h:39-42 | the message is queued last and counted |
| `TransmitQueues.PassKeepsUnacked` | include/club/transport/transmit_queue.h:70-106 | a pass drops no reliable message that is not acknowledged and invents none |
| `TransmitQueues.PassSendsPieces` | include/club/transport/transmit_queue.h:83-91 | everything a pass sends is cut from a queued message |
| `TransmitQueues.PassSendsDue` | include/club/transport/transmit_queue.h:72-83 | nothing that is acknowledged or was recently sent goes out |
| `TransmitQueues.PassStamps` | include/club/transport/transmit_queue.h:83-106 | what stays queued carries the time at which its end went out, and an unreliable message sent to its end does not stay |
| `TransmitQueues.PassFillsRoom` | include/club/transport/transmit_queue.h:112-131 | room used and encoded sizes add up |
| `TransmitQueues.PassWithoutRoom` | include/club/transport/transmit_queue.h:112-131 | without room for a header nothing is sent |
| `Codec.GetBack` | include/binary/decoder.h:153-268 | a number that fits its width is read back, and reading goes on behind it |
| `Codec.Encoder.PutRaw` | include/binary/encoder.h:229-238 | all bytes are written at the cursor or, when they do not fit, none and the error sticks |
| `Codec.Encoder.PutUint` | include/binary/encoder.h:140-215 | fixed-width big-endian writing with the same all-or-nothing rule |
| `Codec.Encoder.Skip` | include/binary/encoder.h:131-138 | the cursor moves if there is room; otherwise the error sticks |
| `Codec.Decoder.GetUint` | include/binary/decoder.h:153-268 | the loop reads the big-endian number; reading past the end leaves zero and a sticky error |
| `Codec.Decoder.GetRaw` | include/binary/decoder.h:270-277 | the next bytes, or none and a sticky error |
| `Codec.MaskRoundTrip` | include/club/transport/ack_set.h:243-255 | a set of bit positions survives its bit mask |
| `Packets.PacketRoundTrip` | include/club/transport/packet.h:31-102 | any encoded packet, with anything behind it in the buffer, is read back with its times, acknowledgements, window, sequence number and fragments, also when it has no fragments |
| `Packets.FragmentRoundTrip` | include/club/transport/in_message_part.h:75-100 | a fragment is read back |
| `Packets.AckRoundTrip` | include/club/transport/quality_of_service.h:133-190 | the acknowledgement part is read back, but for the lowest number, which does not travel |
| `Packets.WindowRoundTrip` | include/club/transport/ack_set.h:243-255 | the window's highest number and bits are read back |
| `Packets.CutHeadIsRefused` | include/club/transport/packet.h:31-39 | a packet that was cut off anywhere before its fragments is refused |
| `Packets.DecodePacket` | include/club/socket.h:397-409 | the receive handler reads the header and the fragments before the first malformed one, and reports an error exactly when there is one |
| `Packets.PacketDecoder.DecodeMessages` | include/club/socket.h:403-409 | the loop reads fragments until they are used up or one is malformed, and keeps those before it |
| `Packets.PacketDecoder.DecodeHeader` | include/club/transport/packet.h:31-39 | the header is read, and the payload header only if there are fragments |
| `Packets.PacketDecoder.DecodeMessage` | include/club/transport/packet.h:41-45 | the next fragment, or an error exactly when it is malformed |
| `Congestion.EncodePacket` | include/club/transport/packet.h:55-102 | what is written encodes the drained acknowledgements and one sending pass; it fits a segment if and only if there are at most 355 acknowledgements; bytes in flight do not exceed the window or, if they do already, do not rise; with nothing in flight there is the room of a segment; something is sent if and only if there are fragments or acknowledgements |
| `Congestion.EncodedPacketIsRead` | include/club/transport/packet.h:21-102 | what `encode_packet` writes, the peer reads, for every room a packet can have, if the values fit their widths |
| `Congestion.SendAndRead` | include/club/socket.h:378-417 | encoding a packet at one end and decoding it at the other from a receive buffer of one segment that holds older bytes succeeds if and only if there are at most 355 acknowledgements, and then gives the acknowledgements, window, number, time and fragments that were encoded |
| `Congestion.LargePacketIsRefused` | include/club/socket.h:183-183 | with more acknowledgements the packet is cut off by the receive buffer and refused |
| `Congestion.OnSendKeepaliveAlarm` | include/club/socket.h:668-682 | with anything queued, and however much was in flight, the next packet has the room of a whole segment; with nothing queued a keep-alive message goes out |
| `Congestion.QualityOfService.ClearInFlightInfo` | include/club/transport/quality_of_service.h:60-60 | nothing counts as in flight any more |
| `Congestion.TimedWindowBounds` | include/club/transport/quality_of_service.h:285-296 | after a delay sample the window is at least two segments and beyond those at most one segment above what was in flight |
| `Congestion.QualityOfService.DecodeHeader` | include/club/transport/quality_of_service.h:252-298 | the packets with acknowledged numbers are no longer in flight, those above all of them are, the peer's window is taken, the bytes acknowledged in order are counted, a gap in the numbers halves the window down to two segments, and the delay sample moves it within its bounds |
| `Congestion.ScanMeans` | include/club/transport/quality_of_service.h:151-178 | packet by packet: one stays in flight if and only if no acknowledgement in order has its number and none out of order reaches it; a loss is detected if and only if an acknowledgement leaves a gap |
| `Congestion.ScanCounts` | include/club/transport/quality_of_service.h:169-177 | the bytes newly acknowledged are those of the packets whose numbers came in order |
| `Congestion.GapMeans` | include/club/transport/quality_of_service.h:155-167 | for ascending numbers a gap is a number that exceeds by more than one both the last acknowledged and the one before it |
| `Congestion.TimedWindowDirection` | include/club/transport/quality_of_service.h:276-296 | below the target delay the window does not shrink and above it does not grow, but for its bounds |
| `Congestion.QualityOfService.DecodeAcks` | include/club/transport/quality_of_service.h:142-190 | the loop over acknowledgements matches its specification, and a loss lowers the window but not below two segments |
| `Congestion.ScanConserves` | include/club/transport/quality_of_service.h:151-178 | no bytes are acknowledged that were not in flight, and packets in flight stay ordered |
| `Congestion.QualityOfService.NextPacketMaxSize` | include/club/transport/quality_of_service.h:199-205 | the offer is a segment or all that the window leaves, stays within the window, and is nothing only when the window is used up |
| `Congestion.QualityOfService.BytesInFlight` | include/club/transport/quality_of_service.h:120-125 | the sum of the sizes in flight |
| `Congestion.QualityOfService.EncodeHeader` | include/club/transport/quality_of_service.h:226-249 | times and, if there are any, all acknowledgements in order with the window are written, and the acknowledgements are drained |
| `Congestion.QualityOfService.EncodeAcks` | include/club/transport/quality_of_service.h:133-139 | the draining loop writes the count and every number in ascending order |
| `Congestion.QualityOfService.EncodePayloadHeader` | include/club/transport/quality_of_service.h:208-215 | the packet is in flight under the next number, which is written and then wraps; a packet still in flight under it is replaced |
| `Congestion.PutFlightBytes` | include/club/transport/quality_of_service.h:211-213 | even when a number is used again, at most the new packet's bytes come to those in flight |
| `Congestion.QualityOfService.DecodePayloadHeader` | include/club/transport/quality_of_service.h:218-223 | the packet's number is to be acknowledged, besides those that are already |
| `Routing.BroadcastRoutingTable.Recalculate` | src/club/broadcast_routing_table.h:50-59 | for every source the table has the targets that the breadth-first levels determine |
| `Routing.BroadcastRoutingTable.TargetsFor` | src/club/broadcast_routing_table.h:62-123 | the search with early exit forwards to a farther hub exactly when no hub as far with a smaller id could, never closer or to a smaller id at the same distance, and to one at the same distance when nobody with a smaller id knows it |
| `Routing.TablesForward` | src/club/broadcast_routing_table.h:50-59 | tables recalculated at every hub from one closed graph together forward as the following lemmas need |
| `Routing.OneForwarder` | src/club/broadcast_routing_table.h:62-123 | each hub but the source has exactly one forwarder in the level before it |
| `Routing.BroadcastCovers` | src/club/broadcast_routing_table.h:62-123 | every hub the source reaches gets a copy |
| `Broadcasts.BroadcastReachesIff` | src/club/hub.cpp:330-397 | when all members installed a fuse that its quorum acknowledged, a broadcast from one gets to another if and only if it is reached along the acknowledged neighbour lists |
| `Routing.StepRises` | src/club/broadcast_routing_table.h:62-123 | each forwarding step raises the pair of distance and id |
| `Routing.NoLoops` | src/club/broadcast_routing_table.h:62-123 | a copy never comes to the same hub twice |
| `Graphs.MutableGraph.AddEdge` | include/club/graph.h:30-34 | both ends are nodes and exactly one edge is new |
| `Graphs.MutableGraph.RemoveEdge` | include/club/graph.h:42-53 | exactly one edge goes, and no empty edge set stays |
| `Graphs.MutableGraph.RemoveUnreachableNodes` | include/club/graph.h:55-91 | exactly what the pivot reaches stays, with all outgoing edges, the rest is returned, and the worklist terminates although nodes can be queued twice |
| `Rendezvous.Handler.Handle` | src/rendezvous/handler.h:234-342 | every message keeps the maps inverse and nobody matchable waiting; a fetch is matched with the first candidate, each is told the addresses of the fetch that the other came with, and both are forgotten, or it waits |
| `Rendezvous.Handler.FindOrCreateEntry` | src/rendezvous/handler.h:166-212 | registration, also under a changed service, keeps the maps inverse without empty sets, and every client known under the addresses it first came with |
| `Rendezvous.Handler.Forget` | src/rendezvous/handler.h:125-145 | exactly one endpoint goes, the maps stay inverse, and if nobody matchable was waiting, nobody is |
| `Rendezvous.Handler.RemoveFromService` | src/rendezvous/handler.h:148-163 | an emptied waiting set is dropped |
| `Rendezvous.Handler.FindMatch` | src/rendezvous/handler.h:311-342 | the scan finds the first client that can be matched, if there is one |
| `Rendezvous.AloneOrHosts` | src/rendezvous/handler.h:311-342 | each service's waiting set is one client or all hosts |
| `Rendezvous.IndexIsDetermined` | src/rendezvous/handler.h:125-212 | the service map is a function of the endpoint map |

## Left out

- Agreement on configurations between hubs that fuse concurrently or are partitioned: the code leaves this open in its own remarks (src/club/hub.cpp:526-530, src/club/log.h:70-73).
- Fairness: `Quiescence`, `TransportProgress` and `Stack` show that everything can still be delivered and that deliveries run out, not that the network makes them.
- The congestion window in runs of sockets: a run may send more than the window allows at one time. `WrapAround` uses that for its witnesses; continuations of runs keep to any given pace, and `Congestion.OnSendKeepaliveAlarm` shows that the window does not stay closed.
- Close messages and error handlers: they end a connection, and the runs are those of open ones.
- `unreliable_broadcast` and its forwarding in the hub, beyond the routing table it uses: straight-line sending.
- The port-offer message: the path is unfinished in the source.
- Encoding of the hub's own messages (src/club/message.h): straight-line puts and gets; the packet codec shows the pattern.
- asio sockets, strands, timers, object lifetimes and `was_destroyed` flags: they are represented by atomic steps.
- STUN, rendezvous client and server sockets, hole punching, alarms, demos: network plumbing and small state machines.
- src/club/connection_graph.cpp: an address preference heuristic without a stated specification.
- RTT smoothing and floating-point rounding: window arithmetic is over the reals, truncated where the code truncates, and only its bounds are stated.
- `OutMessage::reset_payload`: nothing calls it.
- Log entries map each predecessor to the uuid that reported it; only the keys are ever read, so the model keeps a set.
- Hubs.Callback: callbacks broadcast a finite script; a callback that broadcasts forever makes the source's commit loop run forever.
- Hubs.OnRecv: the source asserts that a hub never receives its own message; the model takes the branch behind the assertion.
- StaticRuns.Start: histories are recorded from the moment the shared configuration is installed; that the handlers get there is proved for two hubs.
- ReliableTransport.HandleAll: fragments that do not lie inside their message violate an assertion of the source and are ignored; no socket sends them.
- Congestion.SendAndRead: more than 65535 waiting acknowledgements are left aside; the source truncates their count to 16 bits.
- Congestion.PutPayload: fragments are written after the sending pass rather than one by one during it.
- Sockets.SendReliable: payloads beyond the 16-bit size violate an assertion of the source and are not sent.
