# A peer-to-peer node: its channel, its peer table and its managers

This project models the UDP peer protocol of the repository and the node logic that runs
on it, and proves what they keep in every run. Run `dafny verify dfyconfig.toml`.

* `PacketChecks` – the three ways `Packet.verify` can end.
* `Wire`, `Endpoints` – packets, queue entries and one end of a connection as a value: the
  queues `sQ -> vipbox/outbox -> socket -> inbox -> rQ -> recv_queue`, the handshake latch,
  the timer. One function for each loop iteration of each greenlet.
* `Channels` – two endpoints, the responder's server socket and ordered links. Every loop
  iteration is one event; any number of workers may be running.
* `Handshake`, `Fifo`, `Quiescence`, `PingPong`, `Delivery` – theorems over every run of a
  channel: agreement, order, rest, what is answered and what stops, what can be delivered.
* `Lossy` – the same endpoints over a network that loses, repeats and reorders.
* `Keepalive` – one endpoint against the clock.
* `PeerTables` – the peer list through any sequence of connects, hellos and stops.
* `UdpNode` – the classes Protocol, Peer and PeerManager. Their methods are proved against
  the functions of `Endpoints` and `PeerTables`, so the theorems above speak of them.
* `Tallies`, `ConsensusRun` – the vote tally of one node, as a specification and as the class
  that changes it in place, and the votes of n nodes.
* `Gossip`, `Heights`, `Sync` – flooding over a tree, heights as text, and block ranges between
  two nodes.
* `HexText`, `KeyText` – what `int(text, 16)` reads, and the text of a public key.

## Where the code and its evident intent part

The model follows the code. The consequences are theorems; where the intent is clear, the
exact condition under which the code meets it is proved.

* `node.py:116-119` and `node.py:203-206` have their branches the wrong way round. Each
  message is the whole rest of the range (`MessagesAreSuffixes`), block j arrives
  j / maxBlock + 1 times (`Arrivals`), and the range arrives as it is exactly if it fits into
  one message (`RangeArrivesIffItFits`). The loop as meant is `Chunks`. A maxBlock of zero or
  less, which the other node chooses, makes the loop endless for any non-empty range
  (`LoopEndsIff`).
* `node.py:108` and `node.py:111` compare heights as text: a node at height 9 takes one at
  height 10 to be behind (`NineAndTen`; the exact condition is in `TextOrder`).
* `udpProtocol.py:98`, `:111`, `:118` queue `("checked")`, which is a string and no tuple, so
  `udpPeer.py:152` never matches and the report does nothing.
* `udpPeerManager.py:137-138` walks the peer list while stopping a peer removes it from that
  list. If no stop is under way the peers at odd positions stay (`SweptIsOdds`). The list is
  emptied exactly if it was empty or held one peer not yet being stopped (`SweptEmpty`). Over a
  copy of the list the loop would leave exactly the peers whose removal was already under way
  (`StopAsMeant`).
* `udpPeer.py:112` tests the flag before it waits for a report, so a stopped peer can still
  deliver the one message it was waiting for, over a perfect network too (`StoppedYetTakes`). It
  does so exactly if its loop is not killed yet and the next report is data, be it waiting or
  still a datagram for the workers (`StoppedTakesIff`), and never twice (`StoppedTakesOneMore`).
* `udpPeerManager.py:61-62` queues the reason of a refusal, but in doing so sets the flags that
  the loops of the new peer test when they begin. A peer stopped before its loops begin never
  sends anything (`StoppedUnbegun`), so a refused initiator is never told (`RefusalIsSilent`).
* `node.py:175-177` turns a block's hash into a number in the request it then broadcasts.
  `int(number, 16)` raises at the next node, so a block is stored by the origin's own peers
  only (`BlockReachesOnlyPeers`).
* `node.py:174-175` and `node.py:186-187` read two names for one field. The transaction of the
  repository's README lacks one of them and ends every handler it reaches
  (`IncompleteRequestKills`). A transaction reaches every node exactly if it has both
  (`TransactionIff`).
* `udpPeerManager.py:153` wants the claimed address to be the source address. A peer claims
  its `listen_host` (`udpPeer.py:30`), 0.0.0.0 by default, so with the defaults no connection
  completes (`CompletesIffAddressMatches`).
* `Packet.verify` tells most failures by returning False, but its callers only look for an
  exception (`udpProtocol.py:79-84`, `udpPeerManager.py:146-149`). What refuses a packet that is
  otherwise in order is a key that is not hexadecimal digits throughout, though `int` reads it,
  or a node record without ID; a wrong signature, a wrong ID or a missing field does not
  (`RefusedIff`). Of two texts that read as the same key one can be refused (`SameKeyRefused`). A
  vote whose verification fails only prints (`node.py:359-362`).
* The exact ordering promise needs reliable ordered links, and UDP gives none. Loss, reordering
  and repetition each make honest ends accuse each other (`LossAccuses`, `ReorderingAccuses`,
  `RepetitionAccuses`).
* `crypto.py:99` drops the key's prefix unread (`ReadThenWrite`).

## Model

| member | source | states |
|---|---|---|
| Handshake.HandshakeAgreement | udpProtocol.py:48-131 | in every run over ordered links no "badpeer" report exists, at most one confirm is made, and a latched initiator implies a latched responder and peer addresses that are each other's peer sockets, not the server's |
| Handshake.ConfirmLeads | udpProtocol.py:94-127 | while the initiator is unlatched the oldest thing on its way to it, through the responder's command queue, priority box, the link and the inbox, is the only confirm, and nothing else there greets |
| Handshake.StoppedUnbegun | udpProtocol.py:49-75 | a peer, of either end, that is stopped before its loops begin never says or hears anything: its boxes, latch and deliveries stay as they are and nothing is put on the way from it |
| Handshake.RefusalIsSilent | udpPeerManager.py:59-62 | a refused initiator never hears anything, not even the reason queued for it |
| Handshake.LatchStays | udpProtocol.py:55-97 | `hello_received` never becomes false again, at either end, from any state |
| Handshake.CompletesIffAddressMatches | udpPeerManager.py:143-158 | some run latches the initiator if and only if the address it claims is the one its datagrams come from |
| Handshake.StepInv | udpPeer.py:61-142 | the handshake invariant survives every event: sends, worker iterations, timer, receipt, stop, the server socket |
| Fifo.FifoRefinement | udpPeer.py:79-161 | what `send_packet` accepted is what was delivered followed by the data in all queues and links, in one order, though priority packets overtake; the initiator's only loss is what it emitted to the server socket, a prefix |
| Fifo.LossIsOver | udpPeer.py:80-81 | once the initiator has learned the responder's socket nothing more is lost |
| Fifo.QueuesArePrefixes | udpPeer.py:163-168 | each `recv_queue[k]`, as Endpoints.RoutedIs describes it, holds in order and without gaps the first messages for k that the other end accepted (for the responder: after that loss) |
| Quiescence.StepRank | udpProtocol.py:48-139 | every internal event that has anything to do lowers a weighted sum over all queues and links |
| Quiescence.NoStorm | udpPeer.py:95-113 | the work in any internal run, from any state, is bounded by that sum: no ping-pong storm; a run in which every event works is no longer |
| Quiescence.NoDeadEnd | udpPeer.py:95-113 | at any given time, while anything is queued between live ends, some event at that time has work to do or a timer is due |
| Quiescence.RestIsLatched | udpProtocol.py:48-105 | the handshake completes: a reachable connection at rest whose responder was admitted is latched at both ends |
| Quiescence.DeliveredAtRest | udpPeer.py:79-161 | a live connection that at some time has neither work nor a timer due has delivered, in order, all that was accepted, except what the initiator had sent to the server socket, and is latched |
| PingPong.PingsAreAnswered | udpProtocol.py:107-118 | in every reachable connection at rest: the pongs one end handled are as many as the pings the other handled, and each ping of a timer was handled by the other end or taken by the server socket from an initiator that had heard nothing |
| PingPong.StepWay | udpProtocol.py:48-131 | no event loses, repeats or invents a ping, a pong or a disconnect: a ping is made for a silence, a pong for a ping handled, a disconnect when an end is given up |
| PingPong.PingGetsPong | udpProtocol.py:107-111 | handling a ping at a latched end queues one pong |
| PingPong.RefusalStops | udpPeer.py:151-160 | a disconnect, a greeting too many, a ping or data before the greeting, an unknown code: nothing is sent for it, and the end is stopped once its loop has taken the reports queued by then |
| PingPong.FarewellStopsBoth | udpPeer.py:139-142 | in every reachable connection at rest in which one end was given up, by its node, its timer or the limit, both ends are stopped, unless the server socket took the disconnect |
| Delivery.AcceptedCanBeDelivered | udpPeer.py:79-161 | from every reachable live connection whose messages carry numbers, at a moment when no timer is due, some run of internal events ends with both ends latched, nothing on the way, and all that was accepted taken in order, except the initiator's loss |
| Delivery.MessageGetsThrough | udpPeer.py:144-146 | and a message may be sent then, and some run delivers it last |
| Delivery.FarewellGetsThrough | udpPeer.py:43-59 | giving up one end of a live connection at rest, some run tells the other end and removes both peers |
| Endpoints.FreshIs | udpPeer.py:14-41 | a new end, field by field |
| Endpoints.PackedIs | udpProtocol.py:48-72 | one command becomes one packet of its kind, with its content, signed by this node, in the data box if it is data and else in the priority box; an unknown one becomes none; a confirm latches |
| Endpoints.AnsweredIs | udpProtocol.py:91-127 | what is queued for a packet: a confirm for a hello of an unlatched end, a pong for a ping of a latched one, nothing else; a confirm latches |
| Endpoints.ReportedIs | udpProtocol.py:91-131 | and what is reported of it, with every text |
| Endpoints.LoopedIs | udpPeer.py:95-109 | by the length of the silence: a disconnect and the flag beyond the timeout, one ping beyond the interval unless one was sent, else one packet of each box, the priority one first |
| Endpoints.HeardIs | udpPeer.py:79-93 | a datagram joins the inbox, its source becomes the address, the timer starts anew |
| Endpoints.TakenIs | udpPeer.py:111-161 | data is taken, an end-session or bad-peer report stops, a message without a number ends the loop |
| Endpoints.RoutedIs | udpPeer.py:163-168 | what joins `recv_queue[k]` of n: exactly the messages numbered k or k - n, in their order |
| Lossy.Authentic | udpProtocol.py:121-127 | under loss, repetition and reordering, all data taken was accepted by the other end under its ID, and only a latched end takes any |
| Lossy.StoppedTakesOneMore | udpPeer.py:111-113 | after the flag is set a peer takes at most one item more, and none if its loop has ended |
| Lossy.StoppedTakesIff | udpPeer.py:111-113 | a stopped peer with a report waiting, or latched with a datagram waiting, delivers more in some run if and only if its receive loop has not been killed and the next report is data, which for a datagram takes workers still alive |
| Lossy.StoppedYetTakes | udpPeer.py:43-54 | a run over a perfect network in which a message is delivered after the flag is set |
| Lossy.EndedIsSilent | udpPeer.py:49-53 | a receive loop that has ended or been killed delivers nothing more |
| Lossy.GoneIsSilent | udpPeer.py:43-59 | in every run a peer that has left the list never comes back and delivers nothing more, since its loop was killed before |
| Lossy.StoppedCanGo | udpPeer.py:49-59 | a stopped peer can be killed and removed, which changes nothing else of it |
| Lossy.LossAccuses | udpProtocol.py:125-127 | a run of honest ends in which only the confirm is lost and the receiver queues a "badpeer" disconnect |
| Lossy.ReorderingAccuses | udpProtocol.py:125-127 | one in which everything arrives once but a data packet overtakes the confirm |
| Lossy.RepetitionAccuses | udpProtocol.py:99-101 | one in which only the confirm arrives twice |
| Keepalive.PingsBounded | udpPeer.py:90-103 | the timer queues at most one ping for each datagram received, plus one |
| Keepalive.ContactIsLastHeard | udpPeer.py:90-92 | `last_contact` is the time of the last datagram, or of creation |
| Keepalive.CutOffIffSilent | udpPeer.py:97-103 | an iteration of the send loop stops the peer if and only if the silence exceeds the timeout, and only then queues the timeout's disconnect |
| Keepalive.SilenceIsCutOff | udpPeer.py:95-109 | with iterations at most d apart, a silent peer is stopped by the first one after the timeout, and none is later than timeout + d after the last contact |
| Keepalive.DataLeavesInOrder | udpPeer.py:104-108 | the data packet at position i leaves with draining iteration i + 1, whatever priority packets there are |
| Keepalive.LoopsSplit | udpPeer.py:95-109 | every iteration of a live peer either drains or pings |
| Keepalive.DataIsNotStarved | udpPeer.py:95-109 | within one silence the packet at position i has left after i + 2 iterations |
| PeerTables.PeersAreSound | udpPeerManager.py:51-65 | for every sequence of connects, hellos and stops: live peers have different IDs and are at most `max_peers`; removals never fail or repeat; with no stop under way a peer is listed if and only if it is not stopped |
| PeerTables.RefusalIsTransient | udpPeerManager.py:59-62 | a refused hello lists an object that is never live and, whatever happens in between, its removal takes off that object and nobody else, even an established peer of the same ID |
| PeerTables.StepKeeps | udpPeer.py:43-59 | each operation keeps the books of listing, stopping and removal, and the admission limits |
| PeerTables.FinishedTakesOne | udpPeer.py:58 | the removal that ends a stop takes exactly this object off the list and leaves the live peers as they were |
| PeerTables.NoObjectionIff | udpPeerManager.py:168-174 | there is no objection if and only if fewer than `max_peers` peers are listed and none has the ID |
| PeerTables.SweptIsOdds | udpPeerManager.py:137-138 | the manager's stop leaves exactly the peers at odd positions |
| PeerTables.SweptEmpty | udpPeerManager.py:131-140 | the manager's stop leaves no peer if and only if there was none, or one that was not being stopped already |
| PeerTables.VisitedIsEvens | udpPeerManager.py:137-138 | with no stop under way the loop comes to exactly the peers at even positions |
| PeerTables.DroppedAllKeeps | udpPeer.py:139-142 | stopping any peers, one after the other and repeated or not, keeps the books, leaves other removals pending and takes off exactly those not yet being stopped |
| PeerTables.StopAsMeant | udpPeerManager.py:137-138 | the loop as meant, over a copy of the list, leaves exactly the peers whose removal was already pending, so none if there is none |
| PeerTables.SweptTurn | udpPeerManager.py:137-138 | one turn of that loop, with the list closing up behind its index, keeps what the whole loop will leave |
| UdpNode.Protocol.constructor | udpProtocol.py:12-24 | a new handler: unlatched, running, queues empty |
| UdpNode.Protocol.SendWorker | udpProtocol.py:48-72 | one iteration turns the oldest command into its packet, in the box it belongs to, and latches on a confirm |
| UdpNode.Protocol.SignSend | udpProtocol.py:133-139 | the packet joins the priority or the data box, nothing else changes |
| UdpNode.Protocol.RecvWorker | udpProtocol.py:74-131 | one iteration takes the oldest datagram and refuses it if its `verify` raised, or reacts as the endpoint's specification says |
| UdpNode.Protocol.Dispatch | udpProtocol.py:86-131 | the branches on control code and latch: new latch, queued commands, reports and their texts |
| UdpNode.Peer.constructor | udpPeer.py:14-41 | a fresh endpoint with the given address |
| UdpNode.Peer.Stop | udpPeer.py:43-54 | the first call sets the flag and owes a removal, every later one does nothing |
| UdpNode.Peer.Kill | udpPeer.py:49-53 | the receive loop ends, nothing else changes |
| UdpNode.Peer.Unlist | udpPeer.py:58 | removes this object from the list; a missing one would count as a failure |
| UdpNode.Peer.SendPacket | udpPeer.py:144-146 | the message joins the send queue, nothing else changes |
| UdpNode.Peer.SendDisconnect | udpPeer.py:139-142 | a disconnect is queued and logged and the peer stopped once, though stop is asked for twice |
| UdpNode.Peer.Report | udpPeer.py:151-161 | status book, peer table and receive queues after each kind of report; data joins the queue its number names, counted from the end below zero |
| UdpNode.Peer.ParseData | udpPeer.py:163-168 | the message joins `recv_queue[m]`, behind what is there, or `recv_queue[n + m]` for negative m; a number outside changes nothing, and no number ends the loop |
| UdpNode.Peer.RecvLoop | udpPeer.py:111-113 | one iteration takes and reports the oldest entry: endpoint, table, status book and the one receive queue it joins |
| UdpNode.Peer.Receive | udpPeer.py:79-93 | a datagram re-learns the address, resets the timer and joins the inbox; an empty one only re-learns the address |
| UdpNode.Peer.SendLoop | udpPeer.py:95-109 | one iteration times out, pings or drains, as the specification says; what it emits, and what a timeout writes into table and status book |
| UdpNode.Peer.SendFailed | udpPeer.py:123-130 | a socket error stops the peer once, with its report in the status book and no disconnect queued |
| UdpNode.PeerManager.constructor | udpPeerManager.py:37-48 | an empty table, empty book and queues, not yet started |
| UdpNode.PeerManager.ListFacts | udpPeerManager.py:160-166 | sound books of listing and removal give what stop, broadcast and send need: no peer listed twice, and only peers this manager made |
| UdpNode.PeerManager.Log | udpPeerManager.py:176-180 | the status of one ID is overwritten |
| UdpNode.PeerManager.ApproveConnection | udpPeerManager.py:168-174 | no objection if and only if there is room and the ID is new; else the reason, that of the ID winning |
| UdpNode.PeerManager.CreatePeer | udpPeerManager.py:160-166 | a new object is appended to the list |
| UdpNode.PeerManager.MakeConnection | udpPeerManager.py:94-103 | either nothing changes, or one peer with a queued hello is listed |
| UdpNode.PeerManager.NewConn | udpPeerManager.py:51-67 | every outcome of a datagram at the server: wrong state, verify raised, no hello, wrong address, refused, met; table, book and new peer in each |
| UdpNode.PeerManager.StopAt | udpPeer.py:139-142 | one turn of the loop: table, list, status book and the peer it stops |
| UdpNode.PeerManager.StopTurn | udpPeerManager.py:137-138 | the same turn changes the queues, loops and flags of this peer alone |
| UdpNode.PeerManager.StopPeers | udpPeerManager.py:137-138 | the loop leaves of the list what the specification sweeps, and of everything else what clearing the peers it comes to leaves |
| UdpNode.ClearedAllIs | udpPeerManager.py:136-138 | clearing different peers: each is stopped, has one more disconnect to send and its status noted, loops newly stopped are killed, nobody else's queue or loop changes |
| UdpNode.PeerManager.Stop | udpPeerManager.py:131-140 | a first stop clears the peers its loop comes to and sweeps the list, a second changes no table, book, queue or peer; the books stay sound |
| UdpNode.PeerManager.Broadcast | udpPeerManager.py:105-111 | exactly the sampled peers, as many as wanted if there are as many, get the packet; without a count these are all that are not excluded |
| UdpNode.PeerManager.Send | udpPeerManager.py:113-129 | the packet goes out if and only if the ID is in the list exactly once, and to that peer alone |
| UdpNode.Eligible | udpPeerManager.py:106 | the comprehension keeps exactly the peers not excluded, without repetition |
| UdpNode.Named | udpPeerManager.py:115 | the comprehension keeps exactly the peers of that ID |
| UdpNode.OneNamed | udpPeerManager.py:115-129 | that list has one member exactly if one object in the table has the ID, once |
| Tallies.TallyIsFirstVoters | node.py:365-376 | after any votes the voters are the first distinct ones up to the threshold, and agreement is having that many |
| Tallies.FirstsSize | node.py:368 | the distinct voters in order are as many as the set of voters |
| Tallies.AgreementIgnoresOrder | node.py:365-376 | votes of the same nodes agree together whatever their order and repetition, and more voters never undo it |
| Tallies.EntriesAreIndependent | node.py:366-382 | an entry ends as if only the votes naming it had come; votes for unpublished hashes change nothing |
| Tallies.ConsensusMgr.PublishBlock | node.py:350-353 | a fresh entry under the hash, and a broadcast of the block as it is |
| Tallies.ConsensusMgr.Vote | node.py:355-382 | one vote on the real records: the sealed block is broadcast with its old hash, then changed in place and stored with the number the text means, for plain digits their value; a text that means none raises |
| Tallies.ConsensusMgr.VoteCleanly | node.py:366-376 | if nobody else changes the records, a sealed block is the published block but for that hash, which is the number its text means |
| Tallies.ConsensusMgr.CountVotes | node.py:327-330 | over any queue of votes each open entry is announced exactly once if it became agreed and otherwise never, as published, and stored with its content under the number its hash means |
| Tallies.ConsensusMgr.CountOne | node.py:327-382 | a loop with one open entry stores its block exactly if enough different nodes voted, once, and under that number |
| Tallies.SealedHashIs | node.py:375 | what a published hash becomes: a number stays; a text becomes what it reads as, for plain digits their value; else it raises |
| ConsensusRun.ConsensusSafety | node.py:303-386 | n nodes, any network: each publication is sealed at most once, as published, with at least the threshold of distinct signers, each of which had received from the publisher a block of that hash and returned a 07 for it; a 08 comes only from a seal; a node stores, once each and in order, the content of each seal under the number its hash means |
| ConsensusRun.EnoughSignersSeal | node.py:303-376 | and it does happen: over a network that delivers, a publication that reaches as many different nodes as are needed is sealed by a run in which each of them signs |
| ConsensusRun.FirstBlockSeals | node.py:303-376 | from the start, with every node alive, the first block published can be sealed so |
| ConsensusRun.SealSettles | node.py:374-376 | sealing stores the block under the number its hash means, or, if it means none, stores nothing and ends the greenlet |
| ConsensusRun.DeliveryIsSigned | node.py:332-348 | whoever receives a published block, or is asked for a signature, answers with one 07 that names its hash |
| ConsensusRun.KeptIs | node.py:374-376 | the rows of a node are those of its seals with a hash that reads as a number, once each and in order |
| ConsensusRun.StepInv | node.py:303-348 | the invariant behind it survives every publication, delivery and request |
| Gossip.FloodTerminates | node.py:169-188 | over any tree and any order of deliveries no node is served twice, so deliveries are at most the nodes |
| Gossip.FloodReaches | node.py:169-188 | a finished flood has served exactly the nodes the request gets as far as |
| Gossip.DeliverInv | udpPeerManager.py:105-111 | every copy in flight goes from a served node to an unserved one, one for each that is due |
| Gossip.HandleIs | node.py:169-188 | one handler: a complete request is stored, a block with the content it has under the number its hash means, and sent on, a block with that number in place of its text; an incomplete one is neither |
| Gossip.TransactionReachesAllOnce | node.py:181-188 | a transaction with both fields is stored by every node exactly once |
| Gossip.IncompleteRequestKills | node.py:169-188 | a request that lacks one of the field's two names, or whose block has a hash that `int` does not read, is stored nowhere and ends the handlers of exactly the origin's peers; any other is stored by all of these, as it is or under that number, and ends none of them |
| Gossip.TransactionIff | node.py:181-188 | every other node has stored the transaction in the end if and only if both names are there or there is no other node |
| Gossip.BlockReachesOnlyPeers | node.py:169-177 | a block is stored exactly by the origin's peers, once each, with its content and the number its hash means, ends the handlers one step further, and reaches all if and only if all are peers of the origin |
| Heights.TextOrder | node.py:108-111 | for a below b, the text of a is the smaller one if and only if a is at most the leading digits of b, as many as a has; otherwise the order is reversed |
| Heights.NineAndTen | node.py:108-111 | 9 and 10 are taken the wrong way round |
| Heights.DecReads | node.py:115-199 | `int` reads decimal digits as their value |
| Heights.SignedDecReads | node.py:115-199 | and so it does behind a sign |
| Heights.ReadsBack | node.py:115-199 | `int` reads back the text that `str` made of a height |
| Sync.SendRange | node.py:201-208 | the loop sends the messages of the specification |
| Sync.MessagesAreSuffixes | node.py:116-121 | each message is the whole rest of the range from where the loop stands |
| Sync.RangeArrivesIffItFits | node.py:201-208 | the messages make up the range if and only if it fits into one |
| Sync.Arrivals | node.py:201-208 | block j arrives j / maxBlock + 1 times |
| Sync.ChunksAreTheRange | node.py:199-208 | the loop as meant: ceil(length / maxBlock) non-empty messages within the limit that make up the range |
| Sync.LoopEndsIff | node.py:202-207 | the loop ends if and only if there is nothing to send or maxBlock is positive |
| Sync.PresentIs | node.py:252-255 | the transactions applied: those that are not empty, each once and in order |
| Sync.UpdatedIs | node.py:247-261 | block by block: with readable hashes a row for each, in order, with its height, its transactions and the number its hash means; with another no row |
| Sync.DbMgr.UpdateBlkTrans | node.py:247-261 | all transactions of each block in turn, then a row for each block under the number its hash means; it fails exactly if some hash does not read, after the transactions of the first such block and before any row |
| Sync.DbMgr.ReturnBlock | node.py:211-222 | the height becomes the last block's; an empty message raises |
| Sync.LedgerIs | node.py:247-261 | the ledger of a chain, block by block |
| Sync.AnswerIs | node.py:190-208 | a request from one height to another, as texts, is answered with the messages of the blocks between |
| Sync.AllReturned | node.py:220-222 | handling messages one after another is handling their blocks as one list |
| Sync.RangeBringsLevel | node.py:190-222 | the answer to a request brings the ledger level, each block and transaction once and in order, if and only if it fits into one message; the height is level in any case |
| Sync.ChunksBringLevel | node.py:199-222 | the loop as meant brings it level for every maxBlock |
| Sync.ExchangeBringsLevel | node.py:97-121 | a lower node whose chain is a prefix ends level, by push or by the answer to the request it makes, if and only if the genesis is the same, its height's text is the smaller and the gap fits into one message; with another genesis nothing changes |
| KeyText.PubRoundTrip | crypto.py:20-23 | for any width, writing two coordinates and reading the text returns them (sections 2.3.3 and 2.3.4 of SEC 1, uncompressed form) |
| KeyText.ReadsFields | crypto.py:98-104 | a key of the right length reads as the two halves behind its first two characters, each as `int(text, 16)` reads it, if it reads both |
| KeyText.ReadsPlain | crypto.py:102-103 | halves that are digits throughout, in either case, read as their values |
| KeyText.ReadThenWrite | crypto.py:98-104 | every lower-case key of the right length reads, and is written back unchanged if and only if its ignored prefix was "04" |
| KeyText.WrittenBackIff | crypto.py:98-104 | of all texts that read as one key exactly the one with the prefix "04" and lower-case digits is written back unchanged |
| KeyText.ReadsOnlyFullLength | crypto.py:100-101 | a key is refused for its length if and only if it has any other |
| KeyText.PrefixIsOptional | crypto.py:39-42 | pub2addr hashes one text for a key with and without its prefix |
| HexText.HexReads | crypto.py:102-103 | `int(text, 16)` reads digits as their value |
| HexText.SignedReads | crypto.py:102-103 | and so it does behind a sign |
| HexText.MarkedReads | crypto.py:102-103 | and behind 0x, with and without a sign |
| HexText.BlanksAround | crypto.py:102-103 | blanks of any script around a text change nothing |
| HexText.UnderscoresRead | crypto.py:102-103 | a text of digits and underscores reads exactly if every underscore stands alone between digits, and as if it had none |
| HexText.DigitIs | crypto.py:102-103 | a digit counts by its place among the sixteen, in either case |
| HexText.ValueMore | crypto.py:102-103 | one digit more is sixteen times the value, and the digit |
| PacketChecks.RefusedIff | p2p.py:18-41 | `verify` raises, so that the packet is refused, if and only if no field is missing, the key reads, the library answers, and the key is not hexadecimal digits throughout or the record has no ID |
| PacketChecks.PassedIff | p2p.py:18-41 | it returns None if and only if no field is missing, the key reads and is digits throughout, the library answers and the ID is the key's address |
| PacketChecks.SameKeyRefused | p2p.py:36-38 | a plus sign in the place of a key's leading zero: the same key is read, and the packet refused |
| PacketChecks.OwnPasses | udpProtocol.py:52-53 | a packet as a node makes it, with the text of its key and that key's address, passes |

## Left out

- Sockets, greenlet scheduling, `read_ready` and printing: each loop iteration is one atomic step, chosen freely. A socket error in `send` (`udpPeer.py:123-130`) is a stop without a disconnect, which may come at any time; the packet that met it counts as still in its box, and what a lost priority packet does to the data behind it is in `Lossy` alone. The errno tests of `udpPeer.py:73` and `:84` are not part of this model.
- The moment a kill takes effect: a stop is a flag, then, any time later, the kill of the loops, then the removal; in between and afterwards workers may still send, so whether the last disconnect gets out is open. Receive workers run until the removal.
- The greenlets of a peer are taken to begin together, with the first of them; none begins once the peer is stopped.
- Signatures, SHA-256, RIPEMD-160, DER, base58: library code. Packets of the model are well formed and say who signed them; nothing is claimed about forged ones. Only the ways `verify` can end are modelled, with the library's part as a parameter.
- pickle and json: messages travel as values. The handler's field lookups are modelled, other malformed contents are not.
- Database and the balance logic: not part of the repository. Calls to it are logged; `getBlockByID` is taken to return the block of that height, with a hash that `int` reads.
- `recvfrom(8192)` (`udpPeer.py:80`): a longer datagram is cut, does not unpickle and ends a worker. Packets of the model fit; a 04 message with many blocks may not.
- `int(text, 16)` is that of Python 3.7: underscores between digits, and the decimal digits of Unicode 11.
- `if _b` in updateBlkTrans (`node.py:251`): blocks of the model are never empty; an empty transaction is modelled.
- The older TCP variant, discovery, bootstrap (`udpPeerManager.py:79-88`) and the commented-out handlers.
- Several connections between one pair of nodes, mutual bootstrapping, gossip over cycles and several providers answering one request: the code suppresses no duplicates there.
- Fifo.FifoRefinement: two endpoints of one connection over ordered links; what UDP leaves of it is Lossy.Authentic.
- Lossy.StoppedTakesIff: leaves out a stopped end with nothing waiting in either queue, and an unlatched one with no report waiting; whether one more comes to these depends on what the other end still says.
- UdpNode.PeerManager.Stop: takes each send_disconnect with its kills as one step; the greenlets that run in between are covered by PeerTables.PeersAreSound alone.
- UdpNode.PeerManager.Broadcast: the sample is a parameter, any value random.sample may return.
- ConsensusRun.ConsensusSafety: each publication has a block of its own; publishing one dictionary object twice is only in Tallies.ConsensusMgr.
- Tallies.ConsensusMgr.CountVotes: requires that nobody but the tally changes a published block; Tallies.ConsensusMgr.Vote covers the other case.
- Sync.SendRange: requires a positive maxBlock or an empty range, since the loop does not end otherwise, as Sync.LoopEndsIff says.
- Sync.Arrivals: the blocks of the range are different from each other, as blocks of different heights are.
- Sync.ExchangeBringsLevel: one provider, no other block arriving meanwhile.
- Keepalive.SilenceIsCutOff: times are reals and the clock may be anything; only the distance of the iterations is assumed.
