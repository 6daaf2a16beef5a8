# A verified model of the ironwood overlay

Yggdrasil routes packets over *ironwood*, an overlay in which every node gossips
signed claims to a parent, the claims form a spanning tree, and packets travel
greedily by tree coordinates.  This project models that overlay in Dafny and
proves what its parts promise, one alone and several together.

`dafny verify dfyconfig.toml` checks everything.

## How it is put together

The routers, sessions and queues of the source change their fields in place, so
they are classes here, each method proved against a function of the old state.
Those functions are then run against each other as state machines: many routers
with announcements in flight, two session endpoints over a hostile network, a
lookup spreading over a tree.

| file | what it holds |
|---|---|
| `Basics`, `Keys`, `Tables` | key order; the merge order of announcements; parent chains |
| `Gossip`, `Convergence`, `GossipExamples` | the gossip protocol over any number of nodes: invariant, local consistency, convergence of fair runs, and runs that show the hypotheses are needed |
| `Coordinates`, `Greedy`, `EndToEnd` | tree coordinates and distance; hop bound, greedy delivery, and gossip leading to delivery |
| `RouterTypes`, `Election`, `Router`, `Refinement` | the router actor itself, parent selection, and its ties to the protocol models |
| `Spanning`, `Growth`, `PortRuns` | the elections of all routers together: when nobody wants another parent, how the tree of the least key grows, and where the ports come from |
| `Pathfinder`, `Discovery` | stored paths and waiting packets; from a packet for an unknown destination to its delivery |
| `Blooms`, `Multicast`, `FilterRuns` | filters along tree links; lookups reach their target and terminate |
| `Session`, `SessionDesync`, `SessionNonces`, `SessionReplay`, `SessionData`, `SessionTalk` | the key ratchet of one session, two endpoints over a lossy network, how they get out of sync, nonces in both directions, replays, what the messages carry, and conversations |
| `Heap`, `PacketQueue` | container/heap and the nested-heap queue as a refinement of a map of FIFOs |
| `Address` | addresses, subnets and the bloom transform |
| `Wire`, `Messages`, `BloomCodec` | codecs |
| `Penalty`, `Ports`, `KeyStore` | penalty decay, port allocation, the address-to-key store |

## Results worth knowing first

* `Convergence.GossipConverges`: once nodes stop changing their own entries, any
  fair schedule, with messages overtaking each other at will, ends in a state
  where all neighbours agree on the ancestry of both.  Agreement at rest,
  `Gossip.QuiescentNeighboursAgree`, needs no hypothesis about the announcements;
  expiry and failing links keep its invariant exactly when nobody relies on what
  they take away, and `GossipExamples` has runs where somebody does.  Coming to
  rest needs that (seq, parent, nonce) determines the announcement for a key:
  `Convergence.ConflictNeverSettles` shows that otherwise no schedule helps, from
  a state that is reached.
* `Spanning.ElectionSettlesOnLeastTree`: with gossip at rest on a connected
  network, no router wants another parent if and only if the parents form a
  spanning tree over peerings rooted at the least key.
* `Spanning.GossipElectsAndDelivers`: any fair gossip run comes to rest in a state
  which, once no router wants another parent, delivers every packet whatever
  next hops are chosen.
* `Discovery.PacketToUnknownArrives`: on such a network a packet for a destination
  without a known path waits for the lookup, the answer and its release, and
  arrives.  `PathBook.OwnPacketMissesAnswer` shows the one exception: a node's
  first packet to itself is stored just after the answer that should release it.
* `SessionProtocol.KeyAgreement`: under loss, duplication and reordering a session
  is in agreement with its peer exactly when the last init or ack it took did not
  offer forgotten keys.  The source sends such keys when traffic reaches a node
  without a session, also one that is waiting for its ack:
  `SessionDesync.OvertakenAckDesyncs` is a run where that puts the ends out of
  sync, `AgreementWithoutSurprise` and `KeptInitHeals` say when they are in step.
* `SessionProtocol.NoNonceReuse`: no endpoint reuses a nonce, whatever it is sent;
  `SessionNonces.NoSecretTwice`: nor do the two ends ever share secret and nonce.
* `SessionReplay.DeliveredAtMostOnce`: no message is delivered twice between two inits
  or acks taken.  There is one exception, an overflow of the send nonce, and
  `OverflowRedelivers` says exactly which messages it brings back.
* `SessionTalk.ConversationIsHeard`: after a handshake every message of a conversation
  is delivered as written, through any number of key rotations.
* `SessionData.DeliveredWasWritten`: nothing is delivered that was not written.
* `PortRuns.RunsAssignPorts`: every entry carries the port that its parent allocated,
  over all runs; `RunsRoute` has delivery without assuming it.
* `Growth.ElectionsEnd`: elections come to an end in a spanning tree under the
  least key, when gossip settles between them and peers answer.
* `FilterRuns.FiltersComeToRest`: on a fixed tree filters come to rest, so that
  lookups reach their target.
* `PacketQueue.Queue`: two nested heaps refine a map from (source, destination)
  to a FIFO; popping returns a globally oldest packet.
* `Multicast.LookupReachesTarget` with `NoNodeTwice` and `LookupTerminates`.

## Choices

* A key is the big-endian value of its 32 bytes; `Keys` shows that nothing is
  lost.  The zero key is Go's zero value for a missing entry and behaves so.
* Map iteration order, candidate order and message order are arbitrary.  Where
  the outcome depends on the order (`RouterTypes.PickDependsOnOrder`), that is
  shown rather than hidden.
* uint64 arithmetic in costs and nonces wraps explicitly.  Announcement sequence
  numbers wrap too; `BecomeRoot`, and what calls it, requires the current one to
  be below 2^64-1, which is what keeps the panic in `_fix` unreachable.
* `dists[x]` of `_getRootAndDists` counts hops from the given node up to `x`; the
  comment at ironwood/network/router.go:731 says otherwise, and the code is
  followed.
* Heap order in the packet queue rests on non-decreasing time stamps and on
  positive packet sizes, so `Push` asks for both; every packet has a positive
  size because it carries two keys.
* The clock, randomness, link costs and the generation of keys are parameters.
  Cryptography is abstract: Diffie-Hellman is symmetric (section 6.1 of RFC
  7748) and a box opens under the secret and nonce that sealed it; signatures are
  values.  No key pair is generated twice.  Where more is needed it is asked of the
  finitely many keys and messages of the run only: that forgotten keys do not
  collide with the others (`SessionProtocol.Separated`).

## Model

| member | source | states |
|---|---|---|
| `Keys.Less` | ironwood/network/crypto.go:45-55 | byte-wise comparison decides the order of the big-endian values |
| `Keys.ValueInjective` | ironwood/network/crypto.go:15-19 | keys of equal length with equal value are the same key |
| `Tables.MergeKeepsMaximum` | ironwood/network/router.go:595-620 | merging any sequence of announcements keeps, for every key, a known announcement that none outranks |
| `Tables.MergePicksHighest` | ironwood/network/router.go:595-620 | spelled out: the entry kept has the highest sequence number, among those the least parent, among those the least nonce |
| `Tables.MergeConvergesExactly` | ironwood/network/router.go:595-620 | nodes given the same announcements in any order, with any duplicates, hold the same table if and only if for every key the top rank is held by one candidate or by what the table already holds |
| `Tables.MergeConverges` | ironwood/network/router.go:595-620 | in particular when (seq, parent, nonce) determines the announcement |
| `Tables.PortConflictDiverges` | ironwood/network/router.go:595-620 | otherwise the order matters: a concrete pair differing only in the port |
| `Tables.ChainIsChain` | ironwood/network/router.go:893-911 | a parent chain is repeat-free, follows parents and is maximal, on any table, cyclic or not |
| `Tables.ChainUnique` | ironwood/network/router.go:893-911 | only one sequence has that property |
| `Tables.MutualDominanceAgrees` | ironwood/network/router.go:444-471 | two tables each holding, or holding better than, what is on the other's chain have the same chain and entries |
| `Gossip.InvPreserved` | ironwood/network/router.go:444-502 | what a marks as sent to b is known to a, and b holds it or better, has it in flight, or contests it with an entry of the same rank that is in flight to a: every step keeps this if and only if it forgets nothing that a mark relies on; only expiry and a failing link can |
| `Gossip.InvAlongRun` | ironwood/network/router.go:667-698 | that invariant holds in every state of every run from routers without peers whose expiries and failing links are safe in that sense |
| `Gossip.ExpiryKeepsInvExactly` | ironwood/network/router.go:644-657 | an expiring entry keeps the invariant if and only if whoever marked it has it in flight to the forgetful node, which has nothing about it in flight |
| `Gossip.LossKeepsInvExactly` | ironwood/network/router.go:686-691 | a failing link keeps it if and only if all that a mark relies on is held or in flight on another link |
| `Gossip.RemovePreserves` | ironwood/network/router.go:167-194 | forgetting a peer always keeps it |
| `GossipExamples.ExpiryDisagrees` | ironwood/network/router.go:644-657 | two settled routers, one of which forgets the other: quiescent at once, and the neighbours disagree |
| `GossipExamples.PairIsReached` | ironwood/network/router.go:444-502 | the settled pair is reached from routers without peers |
| `GossipExamples.LostReplyRun` | ironwood/network/router.go:679-697 | two settled routers get a second link; a correction goes back over it only and is lost with it |
| `GossipExamples.LostReplyDisagrees` | ironwood/network/router.go:679-697 | the last state is quiescent while the neighbours disagree |
| `Gossip.QuiescentNeighboursAgree` | CHANGELOG.md:264 | local consistency, whatever the announcements: with nothing to deliver and nothing owed, neighbours hold the same entries for the whole ancestry of both |
| `Gossip.DisagreementIsNotRest` | CHANGELOG.md:264 | in every run that forgets nothing relied on, neighbours that disagree on an ancestry still have something to deliver or to send |
| `Convergence.ReplyOutranks` | ironwood/network/router.go:679-697 | a corrective reply strictly outranks the message it answers |
| `Convergence.ReplyOutranksUnlessConflict` | ironwood/network/router.go:679-697 | in general it does so if and only if the two do not share (seq, parent, nonce) |
| `Convergence.ConflictNeverSettles` | ironwood/network/router.go:679-697 | once two neighbours hold different entries of one top rank for either of them, no run of deliveries and maintenance ever comes to rest, whatever the schedule |
| `Convergence.ConflictGoesRound` | ironwood/network/router.go:679-697 | a message and its contested reply can go round for ever: a two-step loop |
| `GossipExamples.ConflictIsReached` | ironwood/network/router.go:504-511 | such a state is reached: a router starts again, adopts the same parent with the same sequence number and nonce but another port, and only then hears of its past |
| `GossipExamples.ConflictLoops` | ironwood/network/router.go:679-697 | there the loop turns and the conflict is of top rank |
| `Convergence.DeliverLowers` | ironwood/network/router.go:667-698 | every delivery lowers a well-founded measure |
| `Convergence.MaintainLowers` | ironwood/network/router.go:444-502 | so does every maintenance that changes anything |
| `Convergence.RunsStabilize` | ironwood/network/router.go:444-502 | every infinite run of deliveries and maintenance stops changing, whatever the schedule |
| `Convergence.GossipConverges` | CHANGELOG.md:264 | every fair run reaches a permanent state with nothing to deliver, nothing owed and all neighbours agreeing |
| `Coordinates.PathOfChild` | ironwood/network/router.go:753-782 | a node's coordinates are its parent's followed by its port |
| `Coordinates.PathInjective` | ironwood/network/router.go:753-782 | in a tree whose siblings have distinct ports, distinct nodes have distinct coordinates |
| `Coordinates.DistIsHopDistance` | ironwood/network/router.go:784-806 | the distance of two coordinates is the least number of tree edges between the nodes: no walk is shorter and one is as short |
| `Greedy.HopBound` | ironwood/network/router.go:808-831 | with arbitrary tables that change between hops, a packet is forwarded at most d0 times, d0 being the distance at the first forwarding router |
| `Greedy.StopsExactlyAtDestination` | ironwood/network/router.go:715-728 | on a converged network a router below the watermark has no next hop if and only if it is the destination |
| `Greedy.GreedyDelivery` | ironwood/network/router.go:808-881 | every route, whatever next hops are chosen, is no longer than the tree distance and can only stop at the destination |
| `Greedy.EveryChoiceDelivers` | ironwood/network/router.go:832-881 | following any choice function ends at the destination |
| `EndToEnd.OwnAncestryIsTrue` | ironwood/network/router.go:444-502 | with neighbours in agreement every node sees its whole ancestry as the ancestors themselves do, on cycles too |
| `EndToEnd.QuiescentIsConverged` | ironwood/network/router.go:444-502 | gossip at rest over a spanning tree of parents gives every router the coordinates that delivery needs |
| `EndToEnd.GossipThenDelivery` | ironwood/network/router.go:715-728 | from any fair gossip run to delivery of every packet |
| `RouterTypes.PickMinimizes` | ironwood/network/router.go:838-880 | where the links of each node have one priority, whatever those of other nodes have, the chosen link minimizes cost times distance, then distance, cost and age, in any scan order |
| `RouterTypes.PickOrderFreeExactly` | ironwood/network/router.go:838-880 | the chosen link does not depend on the order of the map walk if and only if one candidate beats every other |
| `RouterTypes.EqualPrioritiesHaveWinner` | ironwood/network/router.go:838-880 | under the same condition and with distinct ages there is one: the candidate of least score |
| `RouterTypes.PickPrefersPriority` | ironwood/network/router.go:850-855 | among links to one node the lowest priority value wins |
| `RouterTypes.PickDependsOnOrder` | ironwood/network/router.go:838-880 | with unequal priorities there may be none: a concrete case where the order decides |
| `RouterTypes.UnsentNoRepeats` | ironwood/network/router.go:457-471 | no key is announced twice in one round |
| `Router.Router.Update` | ironwood/network/router.go:595-665 | accepts exactly the announcements of higher sequence number, then lower parent, then lower nonce than the entry; then forgets who was told and drops cached paths |
| `Router.Router.HandleAnnounce` | ironwood/network/router.go:667-698 | table, sent marks, reply and refresh flag are those of the protocol model |
| `NodeLaws.UpdateIsLocal` | ironwood/network/router.go:622-665 | an accepted announcement replaces one entry and takes back the marks of its key everywhere; nothing else changes |
| `NodeLaws.NotOwedBack` | ironwood/network/router.go:667-698 | what a peer announced is never owed back to it |
| `NodeLaws.AnswersOnlyDifferences` | ironwood/network/router.go:667-698 | there is an answer if and only if the peer said something else than what is kept, and it is what is kept |
| `Router.Router.Expire` | ironwood/network/router.go:644-657 | forgets another node's entry and all marks of it, as the protocol model does |
| `Router.Router.OwedTo` | ironwood/network/router.go:452-493 | what one peer is owed, root first, each key known, each once |
| `Router.Router.AnnounceToPeers` | ironwood/network/router.go:451-501 | every link carries exactly what its peer is owed |
| `Router.Router.SendAnnounces` | ironwood/network/router.go:444-502 | marks exactly the announced keys as sent; the lookup that could panic never misses |
| `Router.OwedListIsOwed` | ironwood/network/router.go:457-471 | the announced list names exactly the unsent keys of both ancestries, without repeats |
| `Router.WalkDists` | ironwood/network/router.go:730-751 | terminates on any table; the map gives each key of the chain its position, and the root is the last key |
| `Router.BackwardsAncestry` | ironwood/network/router.go:893-911 | lists exactly the chain |
| `Router.WalkPath` | ironwood/network/router.go:753-782 | the root and ports when the chain ends in a self-parent, otherwise the key and no path |
| `Router.InPlaceReverse` | ironwood/network/router.go:777-781 | reverses |
| `Router.Router.AddPeer` | ironwood/network/router.go:137-165 | first link: empty record; further link: everything marked as sent is sent again, and all of it is known |
| `Router.Router.RemovePeer` | ironwood/network/router.go:167-194 | the last link removes the peer from every map |
| `Router.Router.GetDist` | ironwood/network/router.go:784-806 | the distance to the recomputed coordinates, through a cache that stays exact |
| `Router.Router.Lookup` | ironwood/network/router.go:808-881 | no link if and only if no hop is allowed; otherwise a link to a strictly nearer peer, picked from exactly the nearer links; where links of one node have one priority it has the least cost times distance, then distance, cost and age |
| `Router.WinnerIsTaken` | ironwood/network/router.go:832-881 | a link that beats all other nearer links is taken whatever the order of the walk |
| `Router.LeastScoreIsTaken` | ironwood/network/router.go:832-881 | where links of one node have one priority, no nearer link scores less than the one taken |
| `Router.Router.HandleTraffic` | ironwood/network/router.go:715-728 | forwards over the link picked from exactly the nearer ones, delivers or reports broken, in exactly the stated cases |
| `Router.Router.SelectParent` | ironwood/network/router.go:353-402 | the outcome is the fold of the loop body over an offer from every eligible response, in some order |
| `Router.Router.Fix` | ironwood/network/router.go:353-442 | adopts, becomes root or arms the switch exactly as specified; a new entry is the parent's response, port and signatures included, or a new root of the next sequence number; on a change drops the responses and asks every peer anew; self has an entry afterwards and the panic is unreachable |
| `Router.Router.HandleResponse` | ironwood/network/router.go:547-553 | keeps the first response that answers the request |
| `Router.NewEntryIsAnswered` | ironwood/network/router.go:504-587 | a pass that changes our entry changes no other, and under a parent the new one has the port, signature, sequence number and nonce that this parent answered; as a root port zero and the next sequence number |
| `Router.FreshAnswerIsUsable` | ironwood/network/router.go:504-587 | an answer to the current request is always newer than our entry |
| `Router.RestAfterRenewal` | ironwood/network/router.go:403-441 | after a pass that renewed our entry the next one leaves it alone as long as nobody has answered |
| `Router.DueIsRenewed` | ironwood/network/router.go:403-441 | a router that is due for a refresh or armed to become root, and elects a parent with a current answer, issues a newer entry under it, also when it is the parent it has |
| `Router.ArmedBecomesRoot` | ironwood/network/router.go:403-441 | armed twice and without an answer from the elected parent it becomes a root, whatever parent it had |
| `Router.FlagsFallWithRenewal` | ironwood/network/router.go:403-441 | nothing due is forgotten: flags fall exactly with a new entry, and a pass that should make one and cannot arms the switch to root |
| `Router.AskedAnew` | ironwood/network/router.go:209-220 | everybody is asked under our next sequence number, each with its own nonce |
| `Router.FixAdoptsSafely` | ironwood/network/router.go:373-413 | a new parent leaves us on no parent cycle, under a root strictly below us |
| `Router.FixLeavesCycle` | ironwood/network/router.go:403-441 | the least-key member of a cycle leaves it or arms the switch to root |
| `Router.Router.DoMaintenance` | ironwood/network/router.go:109-120 | the new state is the fixed node with everything owed marked as sent; each link carries what its peer was owed; flags, filters and what is sent of them are as specified; no panic is reachable |
| `Router.NothingOwedAfter` | ironwood/network/router.go:444-502 | after it nothing is owed to anybody |
| `Router.PassLeavesCycle` | ironwood/network/router.go:109-117 | a pass at the least-key member of a cycle takes it off or arms the switch to root |
| `Router.Router.TwoPassesBreakCycle` | ironwood/network/router.go:109-117 | the least-key member of a cycle is off it within two undisturbed passes |
| `Router.Router.FixOnTree` | ironwood/network/bloomfilter.go:145-174 | marks the tree links and blanks the filters of links that left the tree |
| `Router.Router.GetBloomFor` | ironwood/network/bloomfilter.go:216-260 | the advertised filter covers ourselves and all other tree links; the dirty mark is kept only when the filter is new |
| `Router.Router.SendAllBlooms` | ironwood/network/bloomfilter.go:269-290 | every tree link goes through one round: filter, dirty mark and resend counter, and exactly the new or overdue filters are sent |
| `Router.SentCovers` | ironwood/network/bloomfilter.go:269-290 | afterwards no tree link misses anything heard elsewhere |
| `Router.NewLinkIsBlank` | ironwood/network/bloomfilter.go:184-189 | a new link gets no lookups, adds nothing to what others are told, and advertises nothing |
| `BloomSpec.SpareBitsClearedExactly` | ironwood/network/bloomfilter.go:235-260 | a round leaves exactly the needed bits if and only if the link was marked dirty or had none to spare |
| `BloomSpec.SpareBitsCanStay` | ironwood/network/bloomfilter.go:235-260 | an unmarked link that advertises all that is needed and more is never marked, so its spare bits stay |
| `BloomSpec.PassBlanksOffTree` | ironwood/network/bloomfilter.go:145-174 | links off the tree advertise nothing, before and after every maintenance, and whoever leaves is told |
| `BloomSpec.ResentInTime` | ironwood/network/bloomfilter.go:269-290 | a tree link is never silent for 3600 rounds |
| `Router.MaintainedFilters` | ironwood/network/bloomfilter.go:211-214 | after the filters' maintenance tree marks are right and every tree link covers us and all other tree links |
| `Router.Router.SendMulticast` | ironwood/network/bloomfilter.go:301-330 | one copy to exactly the tree neighbours other than the sender whose received filter holds all bits of the target, over a link of least priority value |
| `Refinement.SendAnnouncesIsMaintenance` | ironwood/network/router.go:444-502 | what the router sends is a maintenance step of the protocol model |
| `Refinement.FixIsSelfUpdate` | ironwood/network/router.go:403-441 | what `_fix` does to the node is nothing or an own update of the protocol model |
| `Refinement.PassIsProtocolSteps` | ironwood/network/router.go:109-120 | a whole maintenance pass is an own update, if there was one, followed by a maintenance step that carries what went out |
| `Refinement.MaintenanceSettles` | ironwood/network/bloomfilter.go:211-214 | maintenance leaves a well-connected tree settled |
| `Election.ElectsLeastRoot` | ironwood/network/router.go:373-402 | for every order of the responses the outcome leads to the least root on offer |
| `Election.KeepsGoodParent` | ironwood/network/router.go:394-401 | outside a refresh a parent leading to the least root is kept |
| `Election.ElectsCheap` | ironwood/network/router.go:384-401 | a new parent is a cheapest one for its root; at a refresh, costs being below 2^63, the old one is kept only if nothing costs less than half |
| `Election.RefreshNeedsHalf` | ironwood/network/router.go:394-401 | at a refresh a parent to the least root is given up only for one of less than half the cost |
| `Election.DoublingWraps` | ironwood/network/router.go:394-401 | at a refresh a cost of 2^63 wraps when doubled and replaces a cheap path: a concrete case |
| `Election.ElectionResult` | ironwood/network/router.go:353-402 | the least root among self, the current parent's root and all eligible responses, held by one of them |
| `Election.AdoptingLeavesCycles` | ironwood/network/router.go:379-383 | adopting a parent whose chain avoids us puts us on top of it |
| `Election.ConfirmedParent` | ironwood/network/router.go:353-403 | a node whose election confirms its parent is its own root or follows a peer to a root below itself, and no eligible peer leads lower |
| `Election.LeastRootIsKept` | ironwood/network/router.go:353-403 | conversely a node under the least root on offer keeps its parent |
| `Spanning.EverybodyRooted` | ironwood/network/router.go:353-403 | when every confirmed root lies below its node there is no parent cycle anywhere |
| `Spanning.ContentMeansTree` | ironwood/network/router.go:353-403 | on a connected network at rest where nobody wants another parent, the parents form a spanning tree over peerings rooted at the least key |
| `Spanning.TreeMeansContent` | ironwood/network/router.go:353-403 | in such a tree, outside a refresh and with no switch to root armed, `_fix` has nothing to do at any node, whatever the link costs and the order of responses |
| `Spanning.ElectionSettlesOnLeastTree` | ironwood/network/router.go:353-442 | both directions together |
| `Spanning.SettledRoutes` | ironwood/network/router.go:808-881 | such a network, with the ports that parents assigned, is converged and delivers to every destination |
| `Spanning.GossipElectsAndDelivers` | ironwood/network/router.go:109-120 | from any fair gossip run, through settled elections, to one least-rooted tree and delivery |
| `Spanning.PairSettles` | ironwood/network/router.go:353-442 | two concrete routers meet all these hypotheses together |
| `Spanning.PairIsQuiescent` | ironwood/network/router.go:444-502 | and they owe each other nothing |
| `Spanning.PairInv` | ironwood/network/router.go:444-502 | in a coherent state that meets the gossip invariant |
| `Spanning.LookupsSettle` | ironwood/network/bloomfilter.go:211-290 | on such a tree exchanged and maintained filters are settled, so lookups reach every matching node |
| `PortRuns.RunsAssignPorts` | ironwood/network/router.go:532-587 | in every run of allocations, requests, answers, adoptions and gossip in which no port is freed while somebody uses it, every entry carries the port its parent allocated, so siblings differ |
| `PortRuns.FreeKeepsPortsExactly` | ironwood/network/peers.go:99-114 | freeing a port keeps that if and only if no entry, announcement or answer names it |
| `PortRuns.RunsRoute` | ironwood/network/router.go:808-881 | so in such a run a settled network whose routers want no other parent delivers every packet, nothing being assumed of the ports |
| `Growth.TreeShrinksExactlyByRetreat` | ironwood/network/router.go:353-442 | under settled gossip a maintenance pass keeps everybody in the tree of the least key if and only if it is not that of a member, other than the root, that makes itself a root for want of a usable response |
| `Growth.NeighbourJoins` | ironwood/network/router.go:373-413 | a router outside that tree with a member among its responses, whose response from the elected peer can still be used, joins it |
| `Growth.SomebodyCanJoin` | ironwood/network/router.go:373-413 | while the tree does not span a connected network, some router outside has a peer inside |
| `Growth.LeastTakesRoot` | ironwood/network/router.go:403-441 | the least key adopts nobody: it makes itself the root, or arms the switch to do so in the next pass |
| `Growth.JoinsAreFew` | ironwood/network/router.go:109-120 | along every run of passes between which gossip settles and no member retreats, the tree never shrinks and joins are no more than the members gained |
| `Growth.MemberStays` | ironwood/network/router.go:403-413 | a member other than the root whose peers all answered usably does not retreat |
| `Growth.ElectionsEnd` | ironwood/network/router.go:109-120 | in every infinite run of passes on a connected network, everybody keeping to have passes, gossip settling in between and peers answering usably, from some point on the parents form a spanning tree under the least key for good |
| `Multicast.FilterCoversSide` | ironwood/network/bloomfilter.go:216-234 | no false negatives: the filter from a neighbour holds the bits of every node on its side of the edge |
| `Multicast.NoNodeTwice` | ironwood/network/bloomfilter.go:301-330 | in every run no node handles a lookup twice |
| `Multicast.OnlyWhereAsked` | ironwood/network/bloomfilter.go:301-330 | in every run, whatever the filters hold, a lookup goes only over tree links whose received filter holds all bits of the target |
| `Multicast.LookupReachesTarget` | ironwood/network/pathfinder.go:44-85 | when nothing is left in flight every matching node has handled the lookup |
| `Multicast.LookupTerminates` | ironwood/network/bloomfilter.go:301-303 | a run has at most one step per node |
| `FilterRuns.LinkComesToRest` | ironwood/network/bloomfilter.go:216-290 | on a fixed tree every link comes to rest: it advertises one filter that covers what is needed, and the other end has heard it |
| `FilterRuns.FiltersComeToRest` | ironwood/network/bloomfilter.go:211-290 | every fair run of filter maintenance and delivery on a fixed tree, from any marks and filters and with filters overtaking each other at will, is settled from some point on |
| `PathBook.EveryEventKeeps` | ironwood/network/pathfinder.go:93-250 | every packet, lookup, notify, broken report and timer keeps packets with their own destination or in its slot, keeps none waiting for a known path of another node, and sends only along the stored path |
| `PathBook.RumorExists` | ironwood/network/pathfinder.go:164-220 | after a lookup was asked for its slot exists, so the panic in `_handleTraffic` is unreachable |
| `PathBook.PathsOnlyGetNewer` | ironwood/network/pathfinder.go:104-160 | until its timer fires an entry keeps its timer, its sequence number never falls, and path and broken mark change only for strictly newer news |
| `PathBook.OwnPacketMissesAnswer` | ironwood/network/pathfinder.go:194-224 | a packet without a stored path is held; its path is stored by then if and only if it is for the node itself and a lookup went out |
| `PathBook.UnknownDestinationWaits` | ironwood/network/pathfinder.go:209-224 | a packet for another node waits, and a lookup goes out if and only if none just did |
| `PathBook.WaitsThenLeaves` | ironwood/network/pathfinder.go:142-160 | through every undisturbed run it keeps waiting, and the first valid answer sends it along the answered path |
| `PathBook.GoesOnOrWaits` | ironwood/network/pathfinder.go:194-224 | no packet is lost on the spot: it goes on, or waits in its slot |
| `PathBook.KnownLeavesAtOnce` | ironwood/network/pathfinder.go:196-208 | with a stored path it leaves along it at once and a copy is kept, and nothing else changes |
| `PathBook.SentAgainOnNews` | ironwood/network/pathfinder.go:104-162 | the last packet sent is sent again along every newer path |
| `PathBook.NoNewsChangesNothing` | ironwood/network/pathfinder.go:104-141 | a notify that does not check, is not newer, repeats the path or was not asked for changes nothing |
| `PathBook.BrokenAsksAgain` | ironwood/network/pathfinder.go:236-250 | a broken path is marked and asked for again unless that was done recently |
| `PathBook.NewsIsStored` | ironwood/network/pathfinder.go:104-155 | valid news, first and asked for or newer and different, is what is stored, and takes back the broken mark |
| `PathBook.FreshPathIsNotAsked` | ironwood/network/pathfinder.go:27-33 | a path just found is not asked for again within the throttle interval, even if reported broken |
| `PathBook.AskedOncePerInterval` | ironwood/network/pathfinder.go:164-192 | through every run without a time-out of its slot, after a lookup none goes out for any destination of the slot within the throttle interval |
| `PathBook.StaleTimersRemoveNothing` | ironwood/network/pathfinder.go:130-184 | a timer of an entry that is gone removes nothing |
| `Pathfinder.Pathfinder.HandleTraffic` | ironwood/network/pathfinder.go:194-224 | sends along the stored path at once and keeps a copy, or holds the packet; the panic branch is dead |
| `Pathfinder.Pathfinder.RumorSendLookup` | ironwood/network/pathfinder.go:164-192 | one lookup per slot and throttle interval |
| `Pathfinder.Pathfinder.SendLookup` | ironwood/network/pathfinder.go:28-42 | a node matching its own lookup answers itself at once |
| `Pathfinder.Pathfinder.HandleNotify` | ironwood/network/pathfinder.go:93-162 | takes exactly the valid news that are newer and different, or first and asked for; releases what was held |
| `Pathfinder.Pathfinder.HandleBroken` | ironwood/network/pathfinder.go:236-250 | marks the path and asks again |
| `Pathfinder.Pathfinder.Arrives` | ironwood/network/pathfinder.go:93-103 | a notify or broken report is passed on if and only if the router's lookup finds a next hop, dropped when for somebody else, and otherwise handled |
| `Pathfinder.Pathfinder.Timeout` | ironwood/network/pathfinder.go:130-184 | a timer only removes the entry it was started for |
| `Discovery.PacketToUnknownArrives` | ironwood/network/pathfinder.go:44-85 | on a settled network a packet for an unknown destination is held, its lookup reaches the destination, the answer returns over any route, and the released packet arrives over any route |
| `Ratchet.Session.Update` | ironwood/encrypted/session.go:263-297 | takes newer remote keys, advances ours and keeps the send nonce; ignores anything not newer |
| `Ratchet.Session.DoSend` | ironwood/encrypted/session.go:299-332 | bumps the nonce, rotating on overflow, and seals under the labels it states |
| `Ratchet.Session.DoRecv` | ironwood/encrypted/session.go:334-450 | tries the secret that the labels name, rejects replays, records the nonce, and ratchets when allowed |
| `Ratchet.Session.FixSharedKeys` | ironwood/encrypted/session.go:241-248 | the four shared secrets and the nonces |
| `SessionProtocol.KeyAgreement` | ironwood/encrypted/session.go:227-332 | in every run over a lossy, duplicating, reordering network local keys are K[n], K[n+1], K[n+2] and the cached secrets belong to the stored keys; the remote keys are the peer's K[r+1], K[r+2] if and only if the last init or ack taken did not offer forgotten keys (forgotten keys of the run not colliding with its others) |
| `SessionProtocol.AcceptedTrafficOpens` | ironwood/encrypted/session.go:359-434 | between sessions in agreement a message whose labels hit an accepting case opens under exactly the secret that sealed it, and the key inside is the sender's next |
| `SessionProtocol.OpensExactlyInAgreement` | ironwood/encrypted/session.go:359-448 | in every run a message with sensible labels that is no replay opens if and only if the receiver's session is in agreement and the message was sealed to a key the receiver kept; otherwise the out-of-sync branch is taken |
| `SessionProtocol.LostExactlyBySurprise` | ironwood/encrypted/session.go:127-140 | keys are forgotten if and only if traffic reached an endpoint without a session, waiting or not |
| `SessionProtocol.AgreementWithoutSurprise` | ironwood/encrypted/session.go:284-332 | as long as that does not happen both sessions are in agreement and every message with sensible labels opens, under the laws of Diffie-Hellman and boxes alone |
| `SessionProtocol.KeptInitHeals` | ironwood/encrypted/session.go:263-297 | an init or ack with kept keys, once taken, restores agreement |
| `SessionProtocol.AcceptHalf` | ironwood/encrypted/session.go:61-125 | creating a session from kept or forgotten keys, with or without a waiting buffer, fits the key sequences |
| `SessionDesync.OvertakenAckDesyncs` | ironwood/encrypted/session.go:127-140 | a run of seven steps in which traffic overtakes its ack, is answered with forgotten keys, and a later message with sensible labels does not open |
| `SessionDesync.GroupIsSeparated` | ironwood/encrypted/session.go:241-248 | Diffie-Hellman in a group meets the laws, and the keys of that run do not collide in it |
| `SessionProtocol.NoNonceReuse` | ironwood/encrypted/session.go:299-325 | whatever messages reach it, forged ones included, an endpoint never seals two traffic messages under one send key and nonce |
| `SessionProtocol.NoNonceReuseTogether` | ironwood/encrypted/session.go:299-325 | in particular both endpoints in every run of the two |
| `SessionReplay.AtOnceRefused` | ironwood/encrypted/session.go:359-448 | a message that was delivered is refused when it comes again, whatever its labels and with or without rotation |
| `SessionReplay.SpentStaysExactly` | ironwood/encrypted/session.go:263-424 | exactly three things bring a delivered message back: an overflow of the send nonce, following the remote on a lower nonce under another label, an init or ack that brings its keys back |
| `SessionReplay.OverflowRedelivers` | ironwood/encrypted/session.go:299-312 | the overflow does: of the messages just delivered, those to our send key, and no others, are delivered once more |
| `SessionReplay.DeliveredAtMostOnce` | ironwood/encrypted/session.go:334-450 | in every run of two endpoints over a duplicating, reordering network no message is delivered twice unless an init or ack was taken or the send nonce overflowed in between, whatever the cryptography |
| `SessionData.SealedIsDelivered` | ironwood/encrypted/session.go:299-448 | what is sealed around some data under the secret that the labels select is delivered as that data |
| `SessionData.DeliveredWasWritten` | ironwood/encrypted/session.go:299-450 | in every run whatever an endpoint delivers the other end wrote before |
| `SessionData.WrittenIsDelivered` | ironwood/encrypted/session.go:299-450 | whatever is written on an open session is what the other end delivers, whenever it accepts the message |
| `SessionData.WaitingIsSent` | ironwood/encrypted/session.go:93-125 | what waits for a session leaves as soon as there is one |
| `SessionData.WaitingIsLatest` | ironwood/encrypted/session.go:142-190 | it is the latest thing written |
| `SessionData.RatchetsExactly` | ironwood/encrypted/session.go:373-448 | both key sequences move on by one, to the keys announced before, if and only if a message under the remote's next key opens and the last rotation is over a minute old |
| `SessionData.UndeliveredIsAskedAbout` | ironwood/encrypted/session.go:359-448 | what is not delivered takes the out-of-sync branch, unless it is a replay under sensible labels, and changes nothing |
| `SessionData.TakenOnce` | ironwood/encrypted/session.go:263-297 | an init or ack that was taken is not taken again, and costs no send nonce |
| `SessionData.AnswersWithKeys` | ironwood/encrypted/session.go:263-461 | in every run an init taken is acknowledged, traffic that makes no sense is answered by an init, both with the current keys; an ack is not answered |
| `SessionData.AnswerHeals` | ironwood/encrypted/session.go:263-461 | the other end that takes such an answer is in agreement again, whatever it held |
| `SessionTalk.ConversationIsHeard` | ironwood/encrypted/session.go:299-448 | between sessions in step every message of a conversation, each arriving before the next is written, is delivered as written, whoever writes when and however often keys rotate, for up to 2^64 turns |
| `SessionTalk.HandshakeIsInStep` | ironwood/encrypted/session.go:61-125 | write, init, ack: from nothing both ends have sessions in step and the data that waited is delivered |
| `SessionNonces.LabelsNeverCross` | ironwood/encrypted/session.go:284-424 | in every run, whatever the cryptography, no two messages of the two ends are labelled with the same two keys |
| `SessionNonces.NoSecretTwice` | ironwood/encrypted/session.go:299-325 | so no shared secret and nonce is used for two traffic messages by the same end or by different ones, if different pairs of the run's keys share different secrets |
| `Heap.Fix` | ironwood/network/packetqueue.go:162-170 | restores the heap after one element changed, permuting it |
| `Heap.Remove` | ironwood/network/packetqueue.go:182-188 | takes out exactly the chosen element and keeps a heap |
| `Heap.RootIsLeast` | ironwood/network/packetqueue.go:168-170 | the root is not later than anything |
| `PacketQueue.Queue.Push` | ironwood/network/packetqueue.go:89-122 | appends to the packet's flow; heaps, unique keys and all three sizes are kept without sifting |
| `PacketQueue.Queue.Pop` | ironwood/network/packetqueue.go:125-151 | returns a globally oldest packet, the head of its flow, and removes only it |
| `PacketQueue.Queue.Peek` | ironwood/network/packetqueue.go:153-158 | a globally oldest packet, the head of its flow |
| `PacketQueue.Queue.Drop` | ironwood/network/packetqueue.go:41-85 | removes the oldest packet of a largest source of a largest destination |
| `PacketQueue.PopFromQueue` | ironwood/network/packetqueue.go:125-151 | the same on the nested heaps, which then represent the flow map without that packet |
| `PacketQueue.DropFromQueue` | ironwood/network/packetqueue.go:41-85 | likewise for dropping |
| `PacketQueue.PushToQueue` | ironwood/network/packetqueue.go:89-122 | likewise for pushing |
| `PacketQueue.RepresentsOne` | ironwood/network/packetqueue.go:21-36 | the heaps determine the flow map |
| `PacketQueue.TakenConserves` | ironwood/network/packetqueue.go:125-151 | removal touches one flow only and keeps its order |
| `PacketQueue.GivenConserves` | ironwood/network/packetqueue.go:87-122 | pushing adds exactly its packet |
| `PacketQueue.SizesCountBytes` | ironwood/network/packetqueue.go:21-36 | the sizes kept at the three levels are the bytes of the packets below |
| `Address.AddrForKey` | src/address/address.go:70-113 | the bit loop computes the count of leading ones and the whole bytes after them; other key lengths give nothing |
| `Address.GetKey` | src/address/address.go:137-161 | the bit loops compute the partial key |
| `Address.AddressRoundTrip` | src/address/address.go:135-161 | an address comes back from its partial key if and only if the bits past the key's end are clear |
| `Address.ShortOnesAreCanonical` | src/address/address.go:135-161 | always so with at most 143 leading ones |
| `Address.LongOnesLoseBits` | src/address/address.go:135-161 | not always with 144: a concrete address |
| `Address.KeyAddressRoundTrip` | src/address/address.go:65-113 | the address of every key survives its partial key |
| `Address.PartialKeyMatches` | src/core/core.go:98-100 | the partial key of a key's address transforms like the key |
| `Address.TransformIdempotent` | src/core/core.go:98-100 | the bloom transform is idempotent |
| `Address.HighKeyAddress` | src/address/address.go:70-113 | for a key whose first bit is set the address is the inverted key moved up by one bit |
| `Address.SampleAddress` | src/address/address_test.go:58-84 | the tests' example key has the address and subnet the tests expect |
| `Wire.UintRoundTrip` | ironwood/network/wire.go:38-55 | varints decode to what was encoded, before any suffix |
| `Wire.ChopUintFits` | ironwood/network/wire.go:38-46 | whatever decodes fits in 64 bits |
| `Wire.ChopUintExactly` | ironwood/network/wire.go:38-46 | what is decoded is the number that the low seven bits spell up to the first byte below 128 if that is within ten bytes and 64 bits, and otherwise nothing |
| `Wire.EncodeUintSpells` | ironwood/network/wire.go:48-55 | the encoding spells the number in the fewest bytes |
| `Wire.ChopUintLoop` | ironwood/network/wire.go:38-46 | the decoding loop, with its ten-byte and overflow limits |
| `Wire.PathRoundTrip` | ironwood/network/wire.go:80-113 | a path survives the wire before any suffix if and only if no port is zero |
| `Wire.AppendPathLoop` | ironwood/network/wire.go:80-86 | the encoding loop |
| `Wire.ChopPathLoop` | ironwood/network/wire.go:88-113 | the decoding loop |
| `Messages.SigReqRoundTrip` | ironwood/network/router.go:930-969 | decode undoes encode and size is the encoded length |
| `Messages.SigResRoundTrip` | ironwood/network/router.go:992-1039 | likewise |
| `Messages.AnnounceRoundTrip` | ironwood/network/router.go:1060-1100 | likewise |
| `Messages.SigBytesInjective` | ironwood/network/router.go:986-990 | equal signing bytes imply equal node, parent, seq, nonce and port |
| `Messages.LookupRoundTrip` | ironwood/network/pathfinder.go:301-334 | decode undoes encode and size is the encoded length |
| `Messages.NotifyInfoRoundTrip` | ironwood/network/pathfinder.go:386-419 | likewise |
| `Messages.NotifyRoundTrip` | ironwood/network/pathfinder.go:437-479 | likewise |
| `Messages.BrokenRoundTrip` | ironwood/network/pathfinder.go:504-541 | likewise |
| `Messages.TrafficRoundTrip` | ironwood/network/traffic.go:26-69 | likewise, the payload being whatever is left |
| `Messages.SizesArePositive` | ironwood/network/traffic.go:34-42 | every packet that can be queued has positive size |
| `BloomCodec.Encode` | ironwood/network/bloomfilter.go:53-81 | flags exactly the all-zero and all-one words and writes the others in order; size is the encoded length |
| `BloomCodec.Decode` | ironwood/network/bloomfilter.go:83-116 | the decoding loop, with its error cases |
| `BloomCodec.FilterRoundTrip` | ironwood/network/bloomfilter.go:53-116 | decoding the encoding of any filter gives it back |
| `BloomCodec.EncodingUnique` | ironwood/network/bloomfilter.go:53-81 | a filter has one encoding |
| `Penalty.DecayBounds` | ironwood/network/router.go:289-304 | after s half-lives a reading lies between p>>(s+1) and p>>s |
| `Penalty.DecayFalls` | ironwood/network/router.go:289-304 | readings never increase with time, also across half-life boundaries |
| `Penalty.HalvesExactly` | ironwood/network/router.go:289-304 | after s whole half-lives the reading is p divided by 2^s; in between it lies on the line to the next, rounded down |
| `Penalty.RecordDecays` | ironwood/network/router.go:276-311 | a penalty read whole milliseconds after it was recorded has decayed by so many, and not at all while the clock runs behind |
| `Penalty.Penalties.GetDecayedPenalty` | ironwood/network/router.go:276-311 | reads the decayed penalty; deleting small entries is unobservable by any later read |
| `Penalty.Penalties.AddPenalty` | ironwood/network/router.go:261-274 | adds to what is left, up to the cap; stored values stay in 1..30000 |
| `Ports.Peers.AddPeer` | ironwood/network/peers.go:51-97 | a known key keeps its port, a new one gets the least free non-zero port; distinct keys have distinct ports |
| `Ports.Peers.RemovePeer` | ironwood/network/peers.go:99-114 | the port becomes free with the key's last link |
| `Ports.LeastFree` | ironwood/network/peers.go:69-76 | the search ends with the least free port |
| `KeyStore.KeyStore.SendToAddress` | src/ipv6rwc/ipv6rwc.go:77-104 | to a key deriving the address, or into the buffer with a lookup of the address's partial key |
| `KeyStore.KeyStore.SendToSubnet` | src/ipv6rwc/ipv6rwc.go:106-133 | likewise by subnet |
| `KeyStore.KeyStore.Update` | src/ipv6rwc/ipv6rwc.go:135-164 | indexes a new key and flushes what waited for it, once; a waiting packet leaves if and only if the key was not known |
| `KeyStore.KnownKeyReleasesNothing` | src/ipv6rwc/ipv6rwc.go:141-155 | a run in which a key that stayed known is found again and the packet for its address keeps waiting |
| `KeyStore.KeyStore.InfoTimeout` | src/ipv6rwc/ipv6rwc.go:166-183 | a stale timer only removes what is still its own entry; indices stay live |

## Left out

- Ed25519, Curve25519, BLAKE2b and NaCl box internals, signature checks, and the encryption of init and ack messages.
- phony actor scheduling: every actor message and every timer is one atomic step in any order.
- Link latencies, missed-response penalties and their averaging: link cost is a parameter of the methods that use it.
- `ports`, `ancs`, `resSeqs` and `resSeqCtr` of the router: written, but read by nothing modelled here.
- Elections between which gossip does not settle: `Growth` lets it settle between any two passes.
- `_lookup` without a watermark: no caller in the source passes none.
- `_resetTimeout` of the pathfinder and the signing of notifies: timers may fire at any time, and a signature check is a flag.
- Sessions: one incarnation of each endpoint, so no session or buffer timeout. Key sequence numbers are unbounded. The manager's maps are modelled as values, for one remote.
- Router.Router.RemovePeer: does not record the penalty for the disconnect; `Penalty` models the record itself.
- Router.Router.HandleResponse: does not model the latency average and the set of links that responded, which only feed the link cost.
- Discovery.PacketToUnknownArrives: takes a lookup run and an undisturbed slot as given, because the source overwrites a waiting packet when another one for the slot arrives.
- `KeyStore` keys, addresses and subnets are opaque values with derivation functions; the derivation itself is in `Address`.
- Transport, TUN, multicast sockets, admin socket, configuration, command line, handshake and ICMPv6 codecs, buffer pools.
