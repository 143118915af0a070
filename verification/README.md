# A verified model of the thread system and network stack

This project models the algorithmic core of a user-level thread system written in C: its
semaphores, its feedback scheduler and thread lifecycle, two concurrent programs that run on it
(a prime sieve and a bounded buffer), a stop-and-wait byte stream, source routing, and the data
structures under them. Concurrency is modelled as interleavings of small steps; main results
quantify over every run, every size and every scheduling.

Most parts have two layers. A step function on values says what one step of the program does, and
lemmas about all runs of it say what the program guarantees. A class with the program's own
variables has methods for its routines, with their loops and in-place updates, and each method is
proved to do exactly what the step function says, so the results hold of the class. The queue is a
class over linked nodes whose contents the methods relate to sequences. Two things have the first
layer only: the threads that wait on a route entry (`RouteEntry`), and the calls of `miniroute.c`
that start or end a search or send data, which are actions of the network model.

Check it with `dafny verify dfyconfig.toml`, adding `--resource-limit 2000000
--verification-time-limit 0`.

## Files

| file | what it models |
|---|---|
| `Primes.dfy` | number theory behind the sieve: streams, filtering, the next prime |
| `Sieve.dfy`, `SieveResults.dfy` | `sieve.c`: source, growing chain of filters, sink |
| `Buffer.dfy`, `BufferBatches.dfy` | `buffer.c`: producer and consumer over a ring; batches and the end of runs |
| `Synch.dfy` | `synch.c`: the semaphore as counter and wait queue |
| `Minisocket.dfy` | `minisocket.c`: one endpoint, its handler, send loop and receive, opening and closing |
| `MinisocketHandshake.dfy`, `MinisocketClosing.dfy` | a client and a server from their creation to the byte stream; how it begins and ends |
| `MinisocketStream.dfy`, `MinisocketResults.dfy` | two endpoints joined by two channels |
| `MinisocketFragments.dfy`, `MinisocketReaders.dfy` | how messages are cut into packets; the threads that read |
| `MinisocketCounts.dfy`, `MinisocketLimits.dfy` | exactly when the fragments counted have arrived; runs in which they have not, and traffic that never ends |
| `Miniroute.dfy`, `MinirouteResults.dfy`, `MinirouteDiscovery.dfy`, `MinirouteRetries.dfy`, `MinirouteNode.dfy` | `miniroute.c`: floods, replies, cached routes, whole searches, retries, forwarding |
| `RouteEntry.dfy` | `miniroute.c`: the threads that wait on one cache entry |
| `MultilevelQueue.dfy`, `Scheduler.dfy` | `multilevel_queue.c`, `scheduler.c` |
| `Minithread.dfy`, `MinithreadCalls.dfy`, `ThreadSystem.dfy` | `minithread.c`: yield, fork, exit, blocking, the clock handler |
| `Queue.dfy` | `queue.c`: the doubly linked queue on the heap |
| `Ring.dfy`, `HashTable.dfy` | search on a ring; `hashtable.c` |
| `Ports.dfy` | `minimsg.c`: the allocator of bound ports |
| `Alarm.dfy` | `alarm.c` with the parts of `minithread.c` that serve alarms |
| `Modular.dfy`, `Options.dfy` | arithmetic of ring positions; optional values |

## How the code is read

- **Atomicity.** In the sieve and the buffer one step is one semaphore operation or one access to a
  shared variable. `semaphore_P`, `semaphore_V`, `minithread_yield`, `finalproc` and each interrupt
  handler are one step; `retrieve_route` is atomic between the points where it blocks; raising
  `seq` and sending the packet (minisocket.c:556-560) is one step. A semaphore in the sieve and the
  buffer is its number of tokens, which `Synch.TokenRefinement` shows to be what the counter and
  the wait queue amount to.
- **Alarms and the scheduler** are modelled apart. In `Minithread` the clock handler is given the number
  of alarms that are due, which `Alarms.Signals` computes from the list, and performs that many V.
- **Integers** are unbounded, except where the code itself takes a remainder.
- **Sizes** (largest number, ring size, path length, network, table and port range sizes, fragment
  size, clock period) are parameters. `MAX_NETWORK_PKT_SIZE` and `PERIOD` are defined in headers
  that are not part of this model, so the fragment size `mtu` and the `period` are arbitrary
  positive numbers.
- **Pointers to functions** (comparison, predicate, hash) are function parameters.

The code and its documentation, or its evident intent, disagree in some places. The model follows
the code, except as said here.

- minisocket.c:407, 488, 561 and 656 call `wait`; this is read as the `waiT` defined at line 142.
- The test for a payload at minisocket.c:245 forgets the routing header, so an empty ACK counts as
  data. The handler has a parameter `strict` that selects the test as coded or the one its length
  computation (line 248) implies. Every result on streams holds for both;
  `MinisocketLimits.TrafficNeverDies` shows that as coded the packets under way between two connected
  ends never grow fewer.
- A fragment can be counted as sent although the peer has not received it, or be skipped by the
  receiver. `MinisocketCounts.CountsAreRight` says exactly when the count is right in every run,
  `MinisocketLimits` has a run for each of the two ways in which it is not.
- A server that gives up on a client keeps its `ack`, so it never accepts a SYN again:
  `MinisocketHandshake.DeafForGood`. A lost last packet of the handshake, or a time-out that is still
  counted behind it, costs the first fragment: `MinisocketClosing.FirstFragmentLost`,
  `MinisocketClosing.FirstFragmentUnnumbered`.
- `minisocket_close` sends its FIN under the number of the last fragment, so a peer that has accepted
  that fragment rejects the FIN and stays connected, against minisocket.c:631-635:
  `MinisocketClosing.CloseIsHeardExactly`, `MinisocketClosing.CloseIsOneSided`.
- A discovery packet that reaches its destination with ttl 1 writes past the path array
  (miniroute.c:151-155) although miniroute.h:23-24 bounds the path. The model raises a flag
  `overrun` there and drops the packet; `MinirouteResults.OverrunExactly` says when this happens
  and `MinirouteResults.OverrunHappens` that it does for every length.
- The branch miniroute.c:314-319 frees the entry and goes on to use it; the model returns there.
- `retry_count` is 3 once the third broadcast is out, so its reply is ignored (line 214):
  `MinirouteRetries.LastBroadcastIsUnanswered`.
- minithread.c:127-129 calls `forward_packet` twice; the model calls it once.
- multilevel_queue.c:46 admits a level one too large, which is outside the array; `Enqueue` answers
  None for it.
- `queue_prepend` (queue.c:60-68) overwrites the head before it links the old one.
  `LinkedQueue.Queue.PrependAsCoded` shows that no queue is left; `Prepend` has the order of steps
  that meets queue.h:25-29, and the receive of `minisocket.c`, which relies on it, uses that one.
- `size` in `buffer.c` is updated without protection and can be wrong for good
  (`Buffer.SizeCanDrift`); `Buffer.SizeIsRightExactly` says when it is right. Nothing reads it.
- minimsg.c reserves a port number and publishes it in two steps; `Ports.ReservedTwice` says when
  two threads get the same number.
- `trigger_alarm` compares for equality, so an alarm that is not served before the next tick hides
  all later ones, and deregistering an alarm that has been signalled makes another one fire early:
  `Alarms.PromptExactly`, `Alarms.LateFrontBlocks`, `Alarms.LateAlarmsFireLate`, `Alarms.ServedEarly`.

## Model

| member | source | states |
|---|---|---|
| Sieve.StepKeepsInv | sieve.c:36-111 | every step of source, filter or sink, including the sink's fork of a filter, keeps the two-semaphore handshake of every channel, the relation of each filter's output to its input, and the record of printed values |
| SieveResults.OutputIsPrefixOfPrimes | sieve.c:36-111 | for every `max` and every interleaving the printed values are at all times a prefix of the ascending primes up to `max` |
| SieveResults.ChannelContents | sieve.c:40-64 | channel k has carried a prefix of the stream of exactly those numbers of 2..max that none of the first k printed values divides, then the end marker; no more is read than was stored |
| SieveResults.NoOverwrite | sieve.c:41-88 | no step stores into a channel whose last value is unread, and what is read is the next value in the order of the stores |
| SieveResults.StepLowersMeasure | sieve.c:40-108 | a measure over undelivered values and thread positions drops at every step of every thread |
| SieveResults.RunsAreFinite | sieve.c:40-108 | every run ends: its length has a bound that depends on `max` alone |
| SieveResults.StuckIsFinished | sieve.c:83-110 | no deadlock: when no thread can step, all have returned and exactly the primes in 2..max are printed |
| SieveResults.Pipeline.RunSource | sieve.c:36-50 | the source's next step, in place |
| SieveResults.Pipeline.RunFilter | sieve.c:52-70 | a filter's next step, in place |
| SieveResults.Pipeline.RunSink | sieve.c:72-111 | the sink's next step, in place, with the new channel and filter thread |
| SieveResults.Pipeline.Run | sieve.c:36-117 | under any scheduler the whole program terminates with all threads returned and the primes up to `max` printed |
| Primes.HeadIsNextPrime | sieve.c:60-97 | after a filter for each prime up to m, the first number left is the next prime |
| Primes.SiftMembers | sieve.c:60 | what a chain of filters lets through is exactly what no filter's number divides |
| Buffer.StepKeepsInv | buffer.c:24-69 | every step keeps the semaphore counts, ring positions, contents and loop bounds in step with the numbers produced and consumed |
| Buffer.ConsumedInOrder | buffer.c:28-40 | for every ring size, item count and choice of batches the consumer takes 1, 2, 3, ... in order, its `out` is the number taken, and it never takes more than asked for |
| Buffer.UnreadItemsSurvive | buffer.c:34-62 | no slot is overwritten while unread, and at most as many items as slots are unread |
| Buffer.StuckMeansAllConsumed | buffer.c:33-79 | the only state in which neither thread can step is the one with all items consumed and all slots free |
| Buffer.SizeIsRightExactly | buffer.c:37-63 | in any run, for every ring size and item count, `size` has counted the items correctly in all states so far if and only if no store of it so far was computed from a value it no longer had |
| Buffer.SizeCanDrift | buffer.c:37-63 | a run after which `size` is 2 with one item in the ring and no update pending |
| BufferBatches.BatchIsProduced | buffer.c:54-66 | in any interleaving, from one draw of the producer to its next one or its end exactly as many items are put as were drawn, or all that were left |
| BufferBatches.TakenIsDrawn | buffer.c:28-40 | the same of the consumer and the items it takes |
| BufferBatches.RunsEndButForEmptyDraws | buffer.c:28-66 | for every ring size, item count and interleaving, all but the empty draws of a run are at most 20 * arg + 6 steps; so a program that draws no empty batch ends |
| Buffer.BoundedBuffer.RunProducer | buffer.c:46-69 | the producer's next step, in place on the shared array and variables |
| Buffer.BoundedBuffer.RunConsumer | buffer.c:24-44 | the consumer's next step, in place on the shared array and variables |
| Synch.FirstComeFirstServed | synch.c:65-107 | after any history of P and V the wait queue has max(0, -cnt) threads, and threads get past P in the order in which they called it |
| Synch.TokenRefinement | synch.c:65-107 | counter and queue refine a pool of tokens: the k-th caller of P is past it exactly when more than k tokens have been made available |
| Synch.Semaphore.Wait | synch.c:65-82 | P in place: the counter falls, and the caller joins the queue when it is negative |
| Synch.Semaphore.Signal | synch.c:88-107 | V in place: the counter rises, and the front of the queue is released if anyone waits |
| Minisocket.ReceiveConserves | minisocket.c:601-624 | receive returns exactly the first max_len buffered bytes (all if there are fewer) and leaves the rest, honouring offsets of fragments returned in part |
| Minisocket.ReceiveCutsAnywhere | minisocket.c:601-624 | two receives return together what one receive of the summed length returns, and leave the same bytes |
| Minisocket.Socket.HandleIncoming | minisocket.c:197-285 | the receive handler in place, in all states of a socket: rejection with a repeated ACK, acceptance, state changes, buffering, wake-ups and replies |
| Minisocket.Socket.WakeFromPacket | minisocket.c:125-133 | a packet clears the time-out and releases a waiting sender |
| Minisocket.Socket.TransmitFragment | minisocket.c:549-560 | a round of the send loop up to the wait: fragment of mtu bytes or all that is left, new number unless it is a retry, packet |
| Minisocket.Socket.AfterWait | minisocket.c:562-573 | the rest of the round: retry count or progress, and failure after too many tries |
| Minisocket.Socket.constructor | minisocket.c:308-342 | a new socket: number 1, ack 0, nothing sent, buffered or counted |
| Minisocket.Socket.Connect | minisocket.c:482-485 | a client sends its SYN and is connecting |
| Minisocket.Socket.AfterClientWait | minisocket.c:489-505 | the client's loop behind its wait: the try counted and the SYN sent again after a time-out, failure after too many |
| Minisocket.Socket.AfterServerWait | minisocket.c:409-425 | the server's loop behind its wait: the SYNACK sent again after a time-out, back to listening after too many |
| Minisocket.Socket.StartClose | minisocket.c:646-651 | closing begins, unless it has begun |
| Minisocket.Socket.CloseRound | minisocket.c:654-656 | a round of the close loop up to its wait: another FIN unless the socket is closed or the tries are used up |
| Minisocket.Socket.AfterCloseWait | minisocket.c:657-660 | the rest of that round |
| Minisocket.Socket.CopyBytes | minisocket.c:601-624 | the copy loop in place, with a fragment that does not fit put back in front |
| Minisocket.Socket.TakeBytes | minisocket.c:601-630 | receive behind its P, passing the buffer_has_stuff token on when data is left |
| MinisocketStream.StepKeepsInv | minisocket.c:181-285 | every action at either end, and on lossy channels every loss, keeps sender, reader, counters and the packets under way consistent; also lines 540-630 |
| MinisocketResults.StreamIsPrefix | minisocket.c:197-204 | over loss-free channels, with alarms at any time and both ends sending, the bytes returned to a reader followed by those buffered are a prefix of the bytes handed to send at the other end; also lines 243-258 and 549-576 |
| MinisocketResults.AckNeverFalls | minisocket.c:197-204 | over lossy channels no step lowers an ack or changes a fragment already sent |
| MinisocketResults.DeliveredIsSubsequence | minisocket.c:197-252 | over lossy channels the fragments accepted are an in-order, duplicate-free subsequence of those sent |
| MinisocketResults.RetransmissionsAgree | minisocket.c:551-570 | every data packet under way carries the fragment its number stands for, so retransmissions agree |
| MinisocketResults.ReadersAreServed | minisocket.c:247-255 | for every sequence of lengths: bytes returned then bytes buffered are the bytes accepted; a buffer_has_stuff token, left or held by one reader, exists exactly when the buffer is non-empty, so no reader stays blocked beside data; also lines 600-628 |
| MinisocketReaders.ReadersAreCounted | minisocket.c:600-628 | in every run each call of receive is blocked, past its P, or has returned |
| MinisocketReaders.ReceiveReturns | minisocket.c:600-628 | in every run, while a receive has not returned and data is buffered, exactly one reader can go on, and it gets the first bytes buffered, as many as asked for or all |
| MinisocketFragments.CutIsFull | minisocket.c:551-555 | cut into pieces, a message has all pieces full but perhaps the last, none empty, and together they are the message |
| MinisocketFragments.FragmentsAreThePieces | minisocket.c:549-576 | in every run over lossy channels the fragments issued, one for each number, are the first of the pieces of all messages handed to send, and all of them whenever no send is going on |
| MinisocketFragments.OneSend | minisocket.c:549-576 | a send of n bytes that ends has issued exactly the pieces of its message and used n / mtu numbers, rounded up |
| MinisocketFragments.PacketsFit | minisocket.c:551-555 | no packet under way in any run carries more than mtu bytes |
| MinisocketFragments.SendGivesUp | minisocket.c:562-573 | a time-out costs one try and nothing else, the seventh in a row ends the send; a release in time counts the fragment, moves on by mtu bytes or to the end, and begins the tries anew |
| MinisocketHandshake.StepKeepsInv | minisocket.c:197-237 | every step of client, server, alarms and channels keeps the counters, the packets under way and the two ends' states of an opening connection in step; also lines 402-426 and 482-506 |
| MinisocketHandshake.HandshakeAgrees | minisocket.c:197-237 | in every run, with losses, time-outs and repetitions: a server is connected only to a connected client whose port it knows, with counters 1 and 1 at both ends; a call returns a socket only if it is connected; also lines 402-426 and 482-506 |
| MinisocketHandshake.HandshakeBeginsStream | minisocket.c:197-237 | in every run in which both calls have returned and nothing is under way, the two ends are as the byte stream starts from if and only if no time-out is still counted and no empty ACK was buffered as data; also lines 402-426 and 482-506 |
| MinisocketHandshake.HandshakeCompletes | minisocket.c:197-242 | the handshake completes in spite of any n up to six lost SYNs and m + l up to six lost SYNACKs and ACKs: both calls return, both ends are connected with counters 1 and 1, the server's peer is the client's port; also lines 402-426 and 482-506 |
| MinisocketHandshake.SevenTimeOuts | minisocket.c:487-506 | in every run a client that has given up has timed out at least seven times |
| MinisocketHandshake.ClientGivesUp | minisocket.c:487-506 | and with seven time-outs in a row it does |
| MinisocketHandshake.GoneForGood | minisocket.c:187-190 | nothing reaches the socket of such a client any more, and its call returns no connection; also lines 508-515 |
| MinisocketHandshake.DeafForGood | minisocket.c:197-204 | a server that has given up on a client listens again, but in no run is it ever anything but listening afterwards: its ack stays behind; also lines 420-425 |
| MinisocketHandshake.ConnectedToDeafServer | minisocket.c:223-229 | a run in which the client's call returns a connection to such a server; also lines 420-425 |
| MinisocketHandshake.TryStaysCounted | minisocket.c:142-168 | a run without losses in which the client's call returns with a time-out still counted; also lines 487-506 |
| MinisocketClosing.FirstFragmentLost | minisocket.c:197-233 | even with the payload test as intended: if the last packet of the handshake is lost, the server takes the first fragment, whatever it is, for that packet: it is counted as sent and never delivered |
| MinisocketClosing.FirstFragmentUnnumbered | minisocket.c:197-204 | with a time-out still counted the first fragment is sent under the number of the handshake, and the peer's rejection releases the sender; also lines 556-560 |
| MinisocketClosing.CloseIsHeardExactly | minisocket.c:197-204 | a connected peer goes to CLOSING on a FIN if and only if it is exactly one number behind the closer; otherwise nothing changes there; if it is at most one behind, its answer closes the closer; also lines 260-277 and 650-655 |
| MinisocketClosing.CloseIsOneSided | minisocket.c:197-204 | in every loss-free run, once all packets of an end have arrived, its FIN changes nothing at the other end, which stays connected; also lines 260-277 and 650-655 |
| MinisocketClosing.BothClose | minisocket.c:269-277 | two ends that close at the same time both end closed |
| MinisocketClosing.CloseEnds | minisocket.c:654-661 | whatever arrives, the close loop sends at most seven FINs, less the tries counted before |
| MinisocketCounts.CountsAreRight | minisocket.c:243-258 | over lossy channels, both ends sending: all that a sender has counted as sent is in the peer's accepted data, in its place, in every state so far, if and only if the sender never went on without a time-out while its fragment was still under way and the peer skipped none of the numbers counted; also lines 549-576 |
| MinisocketCounts.CountsAreRightLossFree | minisocket.c:243-258 | without losses, both ends sending, the first of these conditions alone is necessary and sufficient; also lines 549-576 |
| MinisocketCounts.CountedIsDelivered | minisocket.c:243-258 | as long as a sender is released only by an acknowledgment of its own fragment, the count is right if and only if no number counted was skipped, and always right without losses; also lines 549-576 |
| MinisocketCounts.OneWayIsJustified | minisocket.c:197-258 | with one-way traffic, lost packets or not, the acceptance test of the handler releases the sender only for an acknowledgment of its own fragment |
| MinisocketCounts.OneWayCounts | minisocket.c:197-258 | so with one-way traffic the count is right if and only if no number counted was skipped, and always without losses |
| MinisocketCounts.CompleteUnlessSkipped | minisocket.c:197-204 | over lossy channels the receiver has every fragment up to a number its ack has reached if and only if it never took an empty control packet for the next packet in order while its ack was below that number |
| MinisocketLimits.DataReleasesSender | minisocket.c:243-258 | a loss-free run with both ends sending in which data from the peer releases a sender whose fragment has not arrived, and the fragment is counted; also lines 561-569 |
| MinisocketLimits.LossGoesUnnoticed | minisocket.c:197-204 | a run with one loss and one early alarm in which all is counted as sent, nothing is under way, and the second fragment never arrives; also lines 561-569 |
| MinisocketLimits.TrafficNeverDies | minisocket.c:245-256 | with the payload test as coded the number of packets under way never falls in any loss-free run, so traffic once begun goes on for ever |
| MinisocketLimits.AnswersExactly | minisocket.c:197-256 | a connected end answers a packet unless the payload test discounts the routing header and the packet is an empty ACK that it accepts |
| MinisocketLimits.LoneAckEchoes | minisocket.c:245-256 | one delivery: a lone ACK between two idle ends is replaced by one in the other direction if and only if the payload test does not discount the routing header |
| Miniroute.FindFirst | miniroute.c:94-104 | find_self: the first slot with the local address, -1 exactly when there is none |
| Miniroute.ReverseTwice | miniroute.c:62-70 | reversing a path twice gives it back |
| MinirouteResults.StepKeepsInv | miniroute.c:121-297 | every lookup, search alarm, eviction, sending, receipt and loss keeps all packets and cache entries well-formed; also lines 299-339 and 343-368 |
| MinirouteResults.DiscoveryPackets | miniroute.c:150-198 | in every reachable state a discovery packet records distinct nodes joined by links, excludes the destination, is zero behind path_len, has ttl + path_len equal to the limit, and is at a neighbour of the last node; also lines 321-330 |
| MinirouteResults.CachedRoutes | miniroute.c:154-231 | every completed cache entry holds a simple linked path from the local node to its destination |
| MinirouteResults.OverrunExactly | miniroute.c:150-155 | a receipt writes past the path array if and only if a discovery packet reaches its destination with ttl 1 |
| MinirouteResults.OverrunHappens | miniroute.c:150-155 | for every path limit there is a network and a run that does so |
| MinirouteDiscovery.ReplyCompletes | miniroute.c:201-231 | in every run a reply at its initiator completes an entry if and only if that is searched under the reply's id with at most two broadcasts out: it is then found with the reply's path read backwards, slot by slot, and no other entry changes; otherwise no cache changes |
| MinirouteDiscovery.DiscoveryIsAnswered | miniroute.c:150-253 | a discovery at its destination with a hop to spare is answered, and its reply, passed on hop by hop, leaves the initiator that still awaits it with exactly the discovery's path followed by the destination |
| MinirouteDiscovery.LookupSearches | miniroute.c:321-370 | a lookup of a destination that is not cached records a search under id 1 and sends it to every neighbour |
| MinirouteDiscovery.AlarmSearchesAgain | miniroute.c:304-336 | the alarm of a search sends it again to every neighbour, under the next id |
| MinirouteDiscovery.AlarmEndsSearch | miniroute.c:308-319 | behind the third broadcast the alarm fails the entry, or removes it if nobody waits, and sends nothing |
| MinirouteDiscovery.EveryRouteCanBeFound | miniroute.c:150-253 | in every network, for every path without repetitions that fits into a path array, some run of a search caches exactly that path, in answer to the first broadcast or to the second; also lines 299-336 and 351-370 |
| MinirouteResults.ReplyTravelsReversed | miniroute.c:154-253 | the answer to a discovery visits exactly the reversed path down to the initiator and is not dropped for its ttl before |
| MinirouteResults.DataFollowsRoute | miniroute.c:261-297 | sending data on a cached route adds one packet to those under way, which visits exactly that route's nodes in order and is delivered after path_len hops; also lines 470-479 |
| MinirouteResults.ReceiptLowersWeight | miniroute.c:150-198 | each receipt of a discovery packet, answered, dropped or rebroadcast, lowers the sum of base^ttl over the packets under way, where base exceeds every node's number of neighbours; other receipts and losses do not raise it |
| MinirouteResults.FloodsEnd | miniroute.c:150-198 | every flood ends: however packets are received, reordered or lost, the receipts of discovery packets are bounded by that weight |
| MinirouteRetries.BroadcastsBounded | miniroute.c:214 | in every reachable state a search has been broadcast at most three times, its id being the number of the last broadcast, and a cached route answers the first or the second; also lines 300-336 |
| MinirouteRetries.LastBroadcastIsUnanswered | miniroute.c:201-218 | a reply to the third broadcast changes no cache, whenever it arrives |
| MinirouteNode.ReversePath | miniroute.c:62-70 | reverse_path as a loop over two arrays |
| MinirouteNode.Router.FindSelf | miniroute.c:94-104 | find_self as a loop over the path array |
| MinirouteNode.Router.PathContainsSelf | miniroute.c:82-92 | path_contains_self: true exactly when some slot holds the local address |
| MinirouteNode.Router.ReceiveDiscovery | miniroute.c:150-198 | a discovery packet at a node: reply along the reversed path, drop, or rebroadcast with the node appended |
| MinirouteNode.Router.ReceiveReply | miniroute.c:201-253 | a reply at a node: completion of the cache entry it answers, or the next hop |
| MinirouteNode.Router.ReceiveData | miniroute.c:261-297 | data at a node: kept at its destination, otherwise sent to the next slot of its path |
| RouteEntry.StepKeepsInv | miniroute.c:203-229 | every wait, wake-up, end of a search and late call keeps the count of waiters equal to the threads blocked or on the way out, with a wake-up pending while anyone waits behind a finished search; also lines 308-319 and 351-421 |
| RouteEntry.BatonIsPassed | miniroute.c:203-229 | once a search has ended and threads wait, one of them has been released; an entry is destroyed only with nobody waiting; also lines 308-319 and 351-421 |
| RouteEntry.AllAreReleased | miniroute.c:369-421 | in any run, behind the end of a search: the outcome stays, every thread counted in is still waiting or was let out by one wake-up each, another wake-up is possible if and only if one waits, so a run in which none is possible any more leaves nobody |
| RouteEntry.OutcomeExactly | miniroute.c:213-319 | in any run the outcome is success if and only if a reply has arrived and failure if and only if the search has ended without one; every thread that joined is waiting or out again |
| RouteEntry.DestroyedExactly | miniroute.c:308-319 | in any run an entry is destroyed exactly by the end of a failed search, a later call, or a waiter other than the maker on its way out, when nobody is left waiting; also lines 394-421 |
| RouteEntry.OneIsWoken | miniroute.c:225-227 | the end of a search, a later call and each waiter on its way out wake exactly one of those who are left; also lines 310-312 and 371-374 and 386-389 and 408-411 |
| MultilevelQueue.PickIsFirst | multilevel_queue.c:69-74 | the level chosen is the first non-empty one in circular order from the level asked for |
| MultilevelQueue.PickFinds | multilevel_queue.c:57-77 | an item is found exactly when the queue is not empty, and at the level asked for if that one is not empty |
| MultilevelQueue.Queue.Enqueue | multilevel_queue.c:43-55 | append to a level; failure for a level out of range; the one level too many that the test admits is outside the array; `size` stays the sum of the level lengths |
| MultilevelQueue.Queue.Dequeue | multilevel_queue.c:63-77 | the wrap-around loop takes the front of the level chosen; nothing and -1 exactly when all levels are empty |
| Scheduler.Phases | scheduler.c:84-103 | the levels are served in turn for 81, 41, 25 and 17 ticks, 164 in a round |
| Scheduler.TickSpendsBudget | scheduler.c:84-108 | each clock tick either expires the quota while a level is served, at the price of one position, or brings that expiry nearer |
| Scheduler.QuotaLasts | scheduler.c:104-107 | after an expiry the next one comes exactly 2, 3, 5 or 9 ticks later, for level 0, 1, 2 or 3 |
| Scheduler.PlaceAfter | scheduler.c:44-72 | a ready thread keeps its place or moves forward whatever else is queued or dispatched; it moves forward at every quota expiry on its level |
| Scheduler.NoStarvation | scheduler.c:44-108 | whatever becomes ready, blocks or yields, the thread at position p of its level is dispatched within (p + 2) * 164 clock ticks |
| Scheduler.Scheduler.Schedule | scheduler.c:44-57 | a thread whose status is OK joins the level of its priority, unless that is out of range; any other is left alone |
| Scheduler.Scheduler.NextThread | scheduler.c:59-72 | the next thread from the level served on; the idle thread exactly when nothing is queued |
| Scheduler.Scheduler.AdvanceClock | scheduler.c:84-108 | a clock tick on the counters in place: phases of 81, 41, 25 and 17 ticks and a quota of 1, 2, 4 or 8 by level |
| Minithread.StepKeepsInv | minithread.c:227-281 | yield, P, V, fork, exit, reaping and the clock handler keep every live thread in exactly one place with the status and priority that fit it; also lines 373-390, synch.c:65-107 |
| Minithread.ThreadsAreConserved | minithread.c:227-281 | in every reachable state each live thread is exactly once running, on the ready level of its priority, or on one semaphore's queue; priorities stay in 0..3; size is the sum of the level lengths; each wait queue has max(0, -cnt) threads; also lines 373-390, scheduler.c:44-72, synch.c:65-107 |
| MinithreadCalls.SemaphoresFollowCalls | synch.c:65-107 | in every run of the system each semaphore is what synch.c makes of the calls on it: those of the threads, a V on the reaper's for each thread that ends, a V on the alarm thread's for each signal of the clock handler; also minithread.c:77-88, 373-390 |
| MinithreadCalls.CallerBlocks | synch.c:65-82 | P puts its caller to sleep at the end of the queue if no token is left, and changes nothing else if there is one; also minithread.c:274-281 |
| MinithreadCalls.ReleasedIsReady | synch.c:88-107 | V puts the thread that has waited longest at the end of the ready level of its priority, and moves nobody else; also minithread.c:227-235 |
| MinithreadCalls.ForkStarts | minithread.c:170-197 | a forked thread has priority 0 and stands at the end of level 0; nothing else changes |
| MinithreadCalls.ReapedInOrder | minithread.c:373-445 | in every run the delete queue holds the threads that have ended and are not yet reaped, in the order in which they ended |
| ThreadSystem.CallAdvances | minithread.c:77-88 | whatever the system does, a ready thread keeps its place or moves forward or runs; also lines 227-281 and 373-390 |
| ThreadSystem.NoThreadStarves | minithread.c:77-88 | in the whole thread system, with threads yielding, blocking, waking, forking and exiting, a ready thread at position p of its level runs before (p + 2) * 164 runs of the clock handler; also lines 227-281, scheduler.c:44-108 |
| ThreadSystem.PrioritiesFollowUse | minithread.c:241-281 | in any run of the system, a thread that always uses up its quota sinks one level each time it gives way, down to 3, and one that always gives way before rises one level each time, up to 0, whatever else happens |
| ThreadSystem.System.YieldThread | minithread.c:241-267 | yield in place: demotion when the quota is used up, promotion otherwise, requeue unless asleep, switch |
| ThreadSystem.System.SemaphoreP | synch.c:65-82 | P by the running thread, which goes to sleep when the count falls below zero; also minithread.c:274-281 |
| ThreadSystem.System.SemaphoreV | synch.c:88-107 | V: the thread released becomes ready at its priority; also minithread.c:227-235 |
| ThreadSystem.System.Fork | minithread.c:170-197 | a new thread starts with priority 0 on the ready queue |
| ThreadSystem.System.FinalProc | minithread.c:372-390 | a thread that ends goes to the delete queue, wakes the reaper and is never queued again |
| ThreadSystem.System.ClockHandler | minithread.c:76-88 | the clock tick advances the scheduler, signals the alarm thread once for each alarm that is due, and preempts the running thread when its quota is used up |
| LinkedQueue.SortedPlace | queue.c:264-282 | in a sorted queue the tests of head and tail and the scan agree: the item goes in front of the first element not below it, and all behind it are not below it |
| LinkedQueue.InsertSorts | queue.c:236-288 | sorted insertion keeps a sorted queue sorted |
| LinkedQueue.InsertPermutes | queue.c:245-288 | the result is a permutation of the old elements and the new one |
| LinkedQueue.KeptExactly | queue.c:290-335 | deletion by predicate removes every match and nothing else; it returns nothing exactly when nothing matched |
| LinkedQueue.KeptInOrder | queue.c:290-335 | the elements kept are in their old order: deletion works on each part of the queue for itself |
| LinkedQueue.LastMatchIsLast | queue.c:324-334 | what deletion returns is the last match |
| LinkedQueue.Queue.Append | queue.c:79-105 | append on linked nodes: the contents grow by the item at the end, and links in both directions, head, tail and length stay consistent |
| LinkedQueue.Queue.Dequeue | queue.c:113-141 | dequeue on linked nodes: the front is removed and returned; failure exactly when the queue is empty |
| LinkedQueue.IteratedParts | queue.c:148-166 | an iteration over two parts goes on with the second, in the state left by the first, only if the first did not end it with -1 |
| LinkedQueue.Queue.Iterate | queue.c:148-166 | the callback is called on the elements in order, handing its state on, up to and including the first for which it answers -1 |
| LinkedQueue.Queue.InsertSorted | queue.c:244-288 | sorted insertion on linked nodes, by head, tail and scan |
| LinkedQueue.Queue.DeleteByPredicate | queue.c:290-335 | deletion by predicate on linked nodes: contents, result and links |
| LinkedQueue.Queue.Prepend | queue.h:25-29 | the documented prepend: the item comes in front of the old contents |
| LinkedQueue.Queue.PrependAsCoded | queue.c:47-74 | prepend as coded never leaves a queue: it fails its assertion if and only if the queue is empty, and otherwise the head follows itself and no chain of nodes fits head, tail and length |
| Ring.SearchIsFirst | hashtable.c:65-69 | a search round the ring stops at the first wanted slot from its start; also minimsg.c:64-70, multilevel_queue.c:69-74 |
| Ring.SearchFinds | hashtable.c:65-69 | one turn misses nothing: it fails if and only if no slot is wanted; also minimsg.c:64-70 |
| Ring.VisitedOnce | hashtable.c:65-69 | probing visits no slot twice |
| HashTable.GetAgrees | hashtable.c:51-78 | get finds the value of a present key and nothing for an absent one, whatever the hash function |
| HashTable.PutAgrees | hashtable.c:111-146 | a put of an absent key fails if and only if the table is full, and otherwise adds exactly that key |
| HashTable.RemoveAgrees | hashtable.c:80-109 | remove takes away exactly its key and hides no other, without leaving a marker |
| HashTable.PutTakesFirstFree | hashtable.c:118-135 | put fills the first free slot in probing order from the hash value, or fails with none free |
| HashTable.KeyIsFoundFirst | hashtable.c:51-109 | get and remove stop at the first slot with the key in the same order |
| HashTable.PutKeepsUnique | hashtable.c:111-146 | a successful put keeps the keys unique if and only if its key was absent |
| HashTable.TableIsBoundedMap | hashtable.c:51-146 | any run of put, get and remove on a new table answers as a map of bounded size does, as long as no put is made for a present key |
| HashTable.PutOfPresentKeyShows | hashtable.c:80-146 | and that condition is needed: after a put for a present key, a remove and a get tell the table from the map |
| HashTable.OneEntryPerDestination | miniroute.c:109-118 | used as the route cache is, which puts an entry only after a failed lookup, the table never holds two entries for one destination; also lines 343-368 and 388-421 |
| HashTable.Table.Lookup | hashtable.c:51-78 | get as the probing loop over the array |
| HashTable.Table.Insert | hashtable.c:111-146 | put as the probing loop over the array, with the count of entries |
| HashTable.Table.Delete | hashtable.c:80-109 | remove as the probing loop over the array, with the count of entries |
| HashTable.Init | hashtable.c:23-49 | a new table is empty; there is none for a size below one |
| Ports.ReservesFirstFree | minimsg.c:58-74 | the number returned is the first free one in cyclic order from the cursor; there is none if and only if all are in use |
| Ports.ReserveSweeps | minimsg.c:63-70 | the cursor passes only numbers in use before the one it returns, and stops right behind that one |
| Ports.EveryOtherNumberComesFirst | minimsg.c:58-74 | in any interleaving of reservations, publications and destructions, between two allocations of one number every other number is allocated or seen in use; also lines 148-196 |
| Ports.ReservedTwice | minimsg.c:58-74 | two reservations in a row, before the first is published, return the same number if and only if every other number is in use; also lines 156-172 |
| Ports.PortTables.NextBound | minimsg.c:58-74 | nextBound as the loop over the array |
| Ports.PortTables.CreateBound | minimsg.c:148-175 | a bound port gets the first free number and is entered under it, a reservation and a publication of the runs above; none for bad arguments or if and only if all numbers are in use |
| Ports.PortTables.CreateUnbound | minimsg.c:92-139 | the same unbound port for every request of one number in range, none for others |
| Ports.PortTables.Destroy | minimsg.c:180-196 | destroying a port, bound or unbound, frees its number, as in the runs above, and does not move the cursor; NULL is left alone |
| Alarms.RegisterKeeps | alarm.c:24-46 | a new alarm, due after the current tick, joins the sorted list behind all alarms that are due |
| Alarms.TickKeeps | minithread.c:77-88 | at a tick that finds no signal pending the early-ending iteration signals exactly the due front of the list; also lines 394-400, queue.c:155-162 |
| Alarms.DeregisterKeeps | alarm.c:58-76 | deregistering an alarm that is not yet due keeps the list sorted and the signals right |
| Alarms.StepKeepsInv | alarm.c:23-76 | as long as the alarm thread is prompt, registering, deregistering, ticking and serving keep the list sorted, in step with the signals, and every alarm in exactly one of list, fired and deregistered; also minithread.c:77-88, 393-414 |
| Alarms.PromptExactly | alarm.c:71-76 | list and signals stay in step if and only if the alarm thread is done before each tick and no signalled alarm is deregistered before it is served; also minithread.c:77-88, 393-414 |
| Alarms.LateFrontBlocks | minithread.c:393-400 | an alarm not served before the next tick hides every alarm behind it from the handler; also queue.c:155-162 |
| Alarms.LateAlarmsFireLate | minithread.c:77-88 | if a tick comes while a signal is pending, the front alarm never fires at its expiry, in whatever way the run goes on; also lines 393-414 |
| Alarms.ServedEarly | alarm.c:71-76 | after a due alarm is deregistered behind its signal, the due alarms left are served on time, and the signal behind them finds no alarm or serves one before its tick; also minithread.c:402-414 |
| Alarms.AlarmsFireOnTime | alarm.c:23-76 | while the alarm thread keeps up, every alarm not deregistered in time fires exactly once, at its expiry tick, and not before; also minithread.c:77-88, 393-414 |
| Alarms.ExpiryBounds | alarm.c:35-40 | a delay of less than a tick expires at the next tick, any other after its whole ticks |
| Alarms.AlarmFiresAsAsked | alarm.c:23-46 | while the alarm thread keeps up, an alarm registered with a delay, and not deregistered, calls its function exactly once, at the tick these bounds give, and not before; also minithread.c:77-88, 393-414 |
| Alarms.DeregisteredNeverFires | alarm.c:71-76 | an alarm deregistered while it is on the list never calls its function, and is on the list no more |
| Alarms.AlarmList.RegisterAlarm | alarm.c:23-46 | registration on the linked queue: conversion of the delay, the next tick at the earliest, failure for a negative delay or no function |
| Alarms.AlarmList.DeregisterAlarm | alarm.c:71-76 | deregistration on the linked queue |
| Alarms.AlarmList.ClockTick | minithread.c:77-82 | the clock handler's iteration over the linked queue and its signals; also lines 393-400 |
| Alarms.AlarmList.Serve | minithread.c:402-414 | the alarm thread takes the front of the linked queue and calls its function; it is left with NULL if and only if the list is empty |

## Left out

- What follows the close loop: `minisocket_free`, client port recycling, and the wait on `unable_to_close` before it. Data that arrives at an end that is closing is handled as the handler does; the byte stream's runs have no close in them.
- What a socket does after a send has failed: the sender stops in a final state.
- More than one sending thread per socket: the single counter `tries` is shared by all of them.
- Data sent by a client before its server's call has returned: the byte stream's runs start with both ends established, and `MinisocketClosing.FirstFragmentLost` shows what can happen before. Several clients of one server, and the tables of ports that opening a connection uses.
- Reordering and duplication by the byte stream's channels; duplicates arise from retransmission only. A packet is lost when it reaches the head of its channel, which is no restriction as nobody sees it before.
- The pointers in `socket->alarms`: the record of the one waiting sender is its position in the send loop.
- The timing of `cache_evict` against threads that still use the returned route: the code says that it does not check (miniroute.c:106-107). `RouteEntry` covers an entry up to the end of its search and the threads that wait on it; the network model evicts at any time.
- A full route cache: the entry is then reachable from its alarm only; the network model lets the search of such an entry end with its first broadcast.
- Sending to the node itself (miniroute.c:446-461) and the number of bytes sent.
- The length of forwarded data (miniroute.c:291-293 pads it): routing is modelled, not packet size.
- `miniheader.c`: headers are records.
- The queues and semaphores of unbound ports, and the transfer of datagrams.
- `queue_delete`: unused, and inconsistent with its documentation. `queue_free`, `hashtable_free` and all other releases of memory.
- What a callback of `queue_iterate` does to the queue itself: it reads and changes a state of its own that is handed to it.
- Exhausted memory and NULL arguments other than those in the contracts; interrupt levels, test-and-set locks and stack switching.
- The idle thread's own record: that nobody else runs is the value None.
- Overflow of `ticks`, `seq`, `ack`, alarm ids and semaphore counters.
- `minifile.c`, `mkfs.c`, `shell.c`, `chat_client.c`, the `network*.c`, `conn-network*.c` and test programs: stubs and drivers.
- Fairness of the buffer program's scheduler, and of its draws: a consumer or producer may draw empty batches for ever.
