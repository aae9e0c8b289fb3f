# Distributed mutual exclusion over replicated files

This project models a program in which clients read and append to files that are replicated on
several servers. Before touching a file, a client obtains a distributed lock for it, either with the
Ricart-Agrawala algorithm and the optimisation of Roucairol and Carvalho (a permission once granted is
kept and used again), or with Maekawa's quorum algorithm.

Each protocol is modelled twice, and the two are tied together. A class works the way the program does:
fields updated in place, loops over peers, quorum members, servers and buffers. Each of its methods is
proved to compute a step function on values. The same step functions make up a transition system of all
the nodes and their channels, about which the theorems speak: any number of nodes, every interleaving.

| file | what it holds |
|---|---|
| `RicartAgrawalaNode.dfy` | one node: the step functions and the strategy class |
| `RicartAgrawalaSystem.dfy` | n nodes and their FIFO channels; the invariant of a pair of nodes; mutual exclusion |
| `RicartAgrawalaProgress.dfy` | deadlock freedom; a measure that every step lowers once nobody asks any more |
| `RicartAgrawalaFairness.dfy` | how often a waiter can be overtaken; what one entry costs in messages |
| `RicartAgrawalaStarvation.dfy` | a wait is bounded although others keep asking |
| `RicartAgrawalaSplitEnter.dfy`, `RicartAgrawalaSplitDanger.dfy`, `RicartAgrawalaSplitNodes.dfy` | testing and entering as two steps: runs that are safe, exactly which steps are not, and for which numbers of nodes they occur |
| `RicartAgrawalaWire.dfy` | protocol messages as payloads, packets and bytes, and back |
| `MessageQueue.dfy` | the bounded priority queue |
| `MaekawaNode.dfy`, `MaekawaArbiter.dfy` | one node of Maekawa's algorithm; what an arbiter keeps |
| `MaekawaSystem.dfy`, `MaekawaSafety.dfy` | requesters and arbiters; safety of timely runs; when giving a lock back is timely |
| `MaekawaCalm.dfy`, `MaekawaExact.dfy` | the configurations in which every run is safe, and that there are no others |
| `MaekawaOrder.dfy` | the order in which the program lets messages be treated |
| `MaekawaColumns.dfy`, `MaekawaRound.dfy`, `MaekawaLateColumns.dfy`, `MaekawaLate.dfy` | the run that breaks mutual exclusion in all other configurations, arbiter by arbiter |
| `MaekawaBoard.dfy`, `MaekawaRace.dfy` | the system for two clients, computed; a run that is not safe although every INQUIRE is answered at once |
| `CyclicQuorums.dfy` | the deployed quorums |
| `FileLock.dfy` | what the three forms of the lock guarantee alike |
| `ReplicaNode.dfy`, `Replication.dfy` | clients inside the critical section, servers, and the agreement of replicas |
| `Numbers.dfy`, `Bytes.dfy`, `PacketCodec.dfy`, `TextCodec.dfy`, `FileText.dfy` | small functions; integers, packets, text payloads and file text as bytes |

## How the model reads the program

- A handler runs under a mutex, so it is one step, sends included. A channel is one FIFO queue for each
  ordered pair of nodes, as one socket and one handler thread for each peer make it.
- `RicartAgrawalaSystem` takes the test `can_enter_critical_section` and the following
  `enter_critical_section` as one step. The program takes the mutex twice. `RicartAgrawalaSplitEnter`
  has them apart. There mutual exclusion is false: `SplitSafeIffAlone` says that every run keeps it
  exactly when there are fewer than two nodes. What goes wrong is always the same: a node that has
  passed the test gives a permission up, by answering an earlier request, before it enters.
  `SafeIffBenign` has both halves. As long as no node with a valid test yields, the run is one of the
  one-step system (`SplitRefinesOneStep`) and safe. After a step in which one does, the system can
  always go on until two nodes are using the resource (`YieldEndangers`). A node can test the condition
  when the request arrives: it has passed its test, holds the sender's permission, and its own request
  comes later.
- In the program all that one client sends to another travels on one socket and is treated by one thread,
  message by message: what it says as a requester to the other's arbiter and what its own arbiter says to
  the other as a requester. An INQUIRE that is not finished holds up what is behind it. The system model
  gives the two directions channels of their own, which allows more interleavings; the theorems that say a
  run is safe hold for all of them. `MaekawaOrder.InOrder` is the program's order, and every run that is
  given as a run of the program obeys it. Channels to oneself are FIFO like the others, with messages of the
  same timestamp in the order of sending, and an arbiter starts unlocked.
- `treat_inquire_message` takes the mutex several times: until it can determine the result, to look
  for a FAILED, and to send RELINQUISH. The model has these as three steps, with any other steps in
  between; meanwhile the channel that the INQUIRE came on is blocked. The handler looks neither whether
  the grant that the INQUIRE asks about is still held, nor whether its client has entered meanwhile. A run
  is timely if every RELINQUISH is sent while the standing of that arbiter is LOCKED and the client waits.
  `RelinquishRightIffTimely` says that the invariant is kept exactly then, `DecidesRight` and
  `OnlyEnteringSpoilsDecision` when a decision is right and what makes it wrong. Timeliness is not exact
  for mutual exclusion itself, run by run: two quorums may share a second arbiter that still keeps their
  clients apart when the first one has been given away.
- What is exact is a condition on the quorums. `ExclusiveIffMeetInOne`: all runs, timely or not, keep
  mutual exclusion exactly when one and the same arbiter is all that any two quorums have in common; and
  the same holds of the runs in the program's order. In such a configuration only that arbiter ever says
  FAILED or INQUIRE, and no INQUIRE is ever answered with a RELINQUISH, so every run is timely. In every
  other one some run of the program ends with two clients inside, although every RELINQUISH in it is sent
  while the grant is recorded. The deployed quorums are of the second kind (`DeployedBreaks`). Nor does it
  help to answer at once: `StaleInquireBreaksMutualExclusion`.
- A quorum is a list in the program and may name a client twice; the class sends one message for each
  entry. In the system model a quorum is a set, and `OnceEach` says that this is the same for a list
  without repetitions.
- `Replication` speaks of the lock in all three forms: Ricart-Agrawala with one step or with two, without
  the steps that spoil a test, and Maekawa's algorithm in timely runs.
- `fgets` into 1024 bytes takes 1023, so the last line reads back up to that length: a line of exactly
  1023 bytes leaves its newline for the next call, which skips it as a blank line.
- Sequence numbers in the protocols are unbounded; packets and their numbers are 32-bit.

## Model

| member | source | states |
|---|---|---|
| RicartAgrawalaNode.Strategy.RequestResource | src/CriticalSectionAlg/RACriticalSectionAlgStrategy.cpp:43-66 | the node waits with a number above all it has seen, and exactly the peers whose permission is not cached are asked |
| RicartAgrawalaNode.Strategy.ReleaseResource | src/CriticalSectionAlg/RACriticalSectionAlgStrategy.cpp:75-98 | each deferred peer, and no other, gets one REPLY and with it the permission |
| RicartAgrawalaNode.Strategy.TreatRequestMessage | src/CriticalSectionAlg/RACriticalSectionAlgStrategy.cpp:123-175 | a REQUEST is deferred exactly while using, or waiting with a lower number or the same number and a lower id; otherwise it is granted, and the permission asked back if it was held (REPLY before REQUEST) |
| RicartAgrawalaNode.Strategy.TreatReplyMessage | src/CriticalSectionAlg/RACriticalSectionAlgStrategy.cpp:115-121 | the permission is recorded and nothing else changes |
| RicartAgrawalaNode.Strategy.CanEnterCriticalSection | src/CriticalSectionAlg/RACriticalSectionAlgStrategy.cpp:177-193 | true exactly when every peer's permission is held |
| RicartAgrawalaNode.Strategy.EnterCriticalSection | src/CriticalSectionAlg/RACriticalSectionAlgStrategy.cpp:195-200 | waiting becomes using |
| RicartAgrawalaNode.Strategy.constructor | src/CriticalSectionAlg/RACriticalSectionAlgStrategy.cpp:10-22 | no permission is held at the start |
| RicartAgrawalaSystem.Project | src/CriticalSectionAlg/RACriticalSectionAlgStrategy.cpp:43-203 | every step of the system is, for any two nodes, an act of one of them on what they share, or nothing |
| RicartAgrawalaSystem.PairStep | src/CriticalSectionAlg/RACriticalSectionAlgStrategy.cpp:43-203 | what two nodes know of each other stays consistent under every act |
| RicartAgrawalaSystem.StepInv | src/CriticalSectionAlg/RACriticalSectionAlgStrategy.cpp:43-203 | the system invariant is kept by every step |
| RicartAgrawalaSystem.MutualExclusion | src/CriticalSectionAlg/RACriticalSectionAlgStrategy.cpp:43-203 | for any number of nodes, no run reaches a state with two nodes using |
| RicartAgrawalaSystem.PermissionExclusive | src/CriticalSectionAlg/RACriticalSectionAlgStrategy.cpp:115-167 | two nodes never both hold, or have on its way to them, each other's permission |
| RicartAgrawalaSystem.RequestAccounting | src/CriticalSectionAlg/RACriticalSectionAlgStrategy.cpp:43-167 | one request is outstanding, in one place, exactly while a node waits without the permission; a REQUEST in flight carries the current number |
| RicartAgrawalaSystem.HeadIsCurrent | src/CriticalSectionAlg/RACriticalSectionAlgStrategy.cpp:123-139 | the REQUEST that is treated carries its sender's present number, and its sender still waits |
| RicartAgrawalaSystem.LowerNumberGoesFirst | src/CriticalSectionAlg/RACriticalSectionAlgStrategy.cpp:131-167 | by the numbers and ids of two nodes: when a REQUEST is deferred and nothing sent, and when it is granted and what is sent |
| RicartAgrawalaSystem.LowerIdGoesFirst | src/CriticalSectionAlg/RACriticalSectionAlgStrategy.cpp:131-167 | of two nodes that wait with the same number the lower id defers and the higher id grants |
| RicartAgrawalaProgress.NoMutualDeferral | src/CriticalSectionAlg/RACriticalSectionAlgStrategy.cpp:131-139 | two nodes never defer each other |
| RicartAgrawalaProgress.FirstWaiterCanEnter | src/CriticalSectionAlg/RACriticalSectionAlgStrategy.cpp:131-193 | with nothing in flight and nobody using, the waiter with the lowest number, and of several the lowest id, holds every permission |
| RicartAgrawalaProgress.EnabledIffPending | src/CriticalSectionAlg/RACriticalSectionAlgStrategy.cpp:43-203 | some step other than a new request is enabled exactly when anything is pending |
| RicartAgrawalaProgress.WorkStep | src/CriticalSectionAlg/RACriticalSectionAlgStrategy.cpp:75-203 | every step that is not a new request lowers the work left, yielding included |
| RicartAgrawalaProgress.Drains | src/CriticalSectionAlg/RACriticalSectionAlgStrategy.cpp:75-203 | without new requests a run of n nodes has at most n(3n-1) steps, and one that can go no further ends idle with each waiter having entered exactly once |
| RicartAgrawalaFairness.SettledStep | src/CriticalSectionAlg/RACriticalSectionAlgStrategy.cpp:131-167 | a permission granted in answer to the current wait is kept until the entry, and its giver cannot enter before |
| RicartAgrawalaFairness.BoundedBypass | src/CriticalSectionAlg/RACriticalSectionAlgStrategy.cpp:131-167 | once a peer has treated a REQUEST it enters at most once before the requester, and only if it was waiting and deferred it |
| RicartAgrawalaFairness.SendsOnlyOnYield | src/CriticalSectionAlg/RACriticalSectionAlgStrategy.cpp:152-163 | a waiting node sends a REQUEST exactly when it yields |
| RicartAgrawalaFairness.YieldRepliesFirst | src/CriticalSectionAlg/RACriticalSectionAlgStrategy.cpp:152-163 | after a yield the first message of the channel is the REPLY, and taking it leaves the peer with the permission |
| RicartAgrawalaFairness.WaitCostOfPeer | src/CriticalSectionAlg/RACriticalSectionAlgStrategy.cpp:43-167 | from asking to entering, one REQUEST at most goes to each peer and is answered; none exactly when the permission was cached and never yielded |
| RicartAgrawalaFairness.EntryCost | src/CriticalSectionAlg/RACriticalSectionAlgStrategy.cpp:43-167 | an entry costs at most 2(n-1) messages, and none exactly when all permissions were cached and none is yielded |
| RicartAgrawalaStarvation.AllAsksLeftStep | src/CriticalSectionAlg/RACriticalSectionAlgStrategy.cpp:43-167 | while a waiter's REQUESTs are all treated, each new request of another node uses up one of at most n-1 chances |
| RicartAgrawalaStarvation.WaitIsBounded | src/CriticalSectionAlg/RACriticalSectionAlgStrategy.cpp:43-203 | whatever the others ask, a node waits through at most a polynomial number of steps at which no REQUEST of its own is still in a channel, and something other than a new request stays possible |
| RicartAgrawalaStarvation.WaitEnds | src/CriticalSectionAlg/RACriticalSectionAlgStrategy.cpp:43-203 | if every REQUEST of a waiter is taken within d steps, its whole wait has at most a polynomial number of steps and d more for each peer |
| RicartAgrawalaSplitEnter.OnlyYieldSpoilsTest | src/CriticalSectionAlg/RACriticalSectionAlgStrategy.cpp:68-71 | after a successful test all permissions stay held exactly if the step is not a yield |
| RicartAgrawalaSplitEnter.FreshEntryStaysOpen | src/CriticalSectionAlg/RACriticalSectionAlgStrategy.cpp:177-203 | if every permission the test saw was granted in this wait, all are still held at the entry, whatever is handled in between |
| RicartAgrawalaSplitEnter.SplitRefinesOneStep | src/CriticalSectionAlg/RACriticalSectionAlgStrategy.cpp:68-71 | a split run without a yield between test and entry is a run of the one-step system |
| RicartAgrawalaSplitEnter.SplitMutualExclusion | src/CriticalSectionAlg/RACriticalSectionAlgStrategy.cpp:68-71 | such split runs keep mutual exclusion; the converse is in the next three rows |
| RicartAgrawalaSplitDanger.YieldEndangers | src/CriticalSectionAlg/RACriticalSectionAlgStrategy.cpp:152-203 | from every state in which a node that has passed its test yields, the system can go on until it and the node it yielded to are both using |
| RicartAgrawalaSplitDanger.SafeIffBenign | src/CriticalSectionAlg/RACriticalSectionAlgStrategy.cpp:152-203 | while all tests made are valid, a step keeps them valid, and keeps the system safe, exactly when no node that has passed the test yields in it |
| RicartAgrawalaSplitDanger.SafeRunIffBenign | src/CriticalSectionAlg/RACriticalSectionAlgStrategy.cpp:68-71 | a run is safe at all its points exactly when no node yields between its test and its entry |
| RicartAgrawalaSplitEnter.SplitSafeWhenAskingAfresh | src/CriticalSectionAlg/RACriticalSectionAlgStrategy.cpp:177-203 | entering in two steps is safe when no permission is carried over from an earlier wait |
| RicartAgrawalaSplitNodes.SplitEnteringCanFail | src/CriticalSectionAlg/RACriticalSectionAlgStrategy.cpp:68-71 | for every number of nodes from two, some split run ends with two of them using |
| RicartAgrawalaSplitNodes.SplitSafeIffAlone | src/CriticalSectionAlg/RACriticalSectionAlgStrategy.cpp:68-71 | all split runs keep mutual exclusion exactly when there are fewer than two nodes |
| RicartAgrawalaWire.RunIsCurrent | src/CriticalSectionAlg/RACriticalSectionAlgStrategy.cpp:32-66 | every REQUEST sent in a run carries the number that `get_msg` puts in its text |
| RicartAgrawalaWire.PacketOf | src/node/node.cpp:125-135 | the packet has the message's type, sender, receiver and clock, and its text splits into the file name, the sender's id and its number |
| RicartAgrawalaWire.ChannelLaw | src/node/client.cpp:356-393 | what was in a channel and what is sent is, in order, what is taken and what remains |
| RicartAgrawalaWire.WireCarriesRun | src/node/client.cpp:356-452 | the bytes written in a run, split and parsed, are the messages taken so far, in order, and then those still in the channel |
| RicartAgrawalaWire.ChannelIsFaithful | src/node/client.cpp:356-452 | any number of protocol messages put on a channel and read in one piece come out the same, in order, with their file and sender |
| MessageQueue.Queue.Push | src/messagequeue.cpp:11-21 | the request is added exactly when there is room, and the result says so |
| MessageQueue.Queue.Top | src/messagequeue.cpp:29-35 | a request whose timestamp is the lowest, and whose sender is the lowest of those with it |
| MessageQueue.Queue.Pop | src/messagequeue.cpp:23-27 | one copy of the least request is removed |
| MessageQueue.Queue.Empty | src/messagequeue.cpp:45-47 | whether the queue holds nothing |
| MessageQueue.LeastIsUnique | include/distributed-me/messagequeue.h:11-17 | the order is total, so there is one top |
| MessageQueue.LeastIsLowest | include/distributed-me/messagequeue.h:11-17 | the top has the lowest timestamp and, of those that have it, the lowest sender |
| MaekawaNode.Strategy.constructor | src/CriticalSectionAlg/MKWCriticalSectionAlgStrategy.cpp:10-31 | no reply recorded, arbiter free, nobody being asked |
| MaekawaNode.Strategy.RequestResource | src/CriticalSectionAlg/MKWCriticalSectionAlgStrategy.cpp:50-64 | each entry of the quorum, and nobody else, is asked with a number above all seen |
| MaekawaNode.Strategy.ReleaseResource | src/CriticalSectionAlg/MKWCriticalSectionAlgStrategy.cpp:73-86 | each entry of the quorum gets a RELEASE and its standing is reset |
| MaekawaNode.OnceEach | src/CriticalSectionAlg/MKWCriticalSectionAlgStrategy.cpp:56-62 | a quorum without repetitions sends one message to each member and none to others |
| MaekawaNode.Strategy.TreatRequestMessage | src/CriticalSectionAlg/MKWCriticalSectionAlgStrategy.cpp:122-165 | computes the arbiter's step, answer and highest number seen; the first request takes the lock, any other is queued if there is room |
| MaekawaNode.Strategy.CanDetermineInquireResult | src/CriticalSectionAlg/MKWCriticalSectionAlgStrategy.cpp:267-270 | true exactly when some standing is FAILED or all are LOCKED |
| MaekawaNode.Strategy.SendRelinquish | src/CriticalSectionAlg/MKWCriticalSectionAlgStrategy.cpp:184-192 | RELINQUISH is sent, FAILED recorded, and nothing else changes, whatever the standings are by then |
| MaekawaNode.Strategy.TreatRelinquishMessage | src/CriticalSectionAlg/MKWCriticalSectionAlgStrategy.cpp:199-218 | the lock goes to a waiting request with the lowest timestamp, then the lowest sender; the old holder's request is back in the queue |
| MaekawaNode.Strategy.TreatFailedMessage | src/CriticalSectionAlg/MKWCriticalSectionAlgStrategy.cpp:220-229 | records FAILED and changes nothing else |
| MaekawaNode.Strategy.TreatLockedMessage | src/CriticalSectionAlg/MKWCriticalSectionAlgStrategy.cpp:231-240 | records LOCKED and changes nothing else |
| MaekawaNode.Strategy.TreatReleaseMessage | src/CriticalSectionAlg/MKWCriticalSectionAlgStrategy.cpp:242-265 | the lock goes to a waiting request with the lowest timestamp, then the lowest sender, which leaves the queue; or it becomes free |
| MaekawaNode.Strategy.ReceivedFailed | src/CriticalSectionAlg/MKWCriticalSectionAlgStrategy.cpp:272-283 | whether some quorum member's standing is FAILED |
| MaekawaNode.Strategy.ReceivedAllLocked | src/CriticalSectionAlg/MKWCriticalSectionAlgStrategy.cpp:285-316 | whether the whole quorum is locked; the entry test computes the same |
| MaekawaArbiter.RequestMeaning | src/CriticalSectionAlg/MKWCriticalSectionAlgStrategy.cpp:133-163 | FAILED exactly when the holder or a waiting request goes first; otherwise the holder is asked, once |
| MaekawaArbiter.RequestByNumber | src/CriticalSectionAlg/MKWCriticalSectionAlgStrategy.cpp:133-163 | by timestamps and senders, in any state of the arbiter and with a full queue too: LOCKED, FAILED, INQUIRE once, or no answer |
| MaekawaArbiter.RequestKeepsInv | src/CriticalSectionAlg/MKWCriticalSectionAlgStrategy.cpp:133-163 | an INQUIRE stays outstanding exactly while a waiting request precedes the holder's |
| MaekawaArbiter.RelinquishMeaning | src/CriticalSectionAlg/MKWCriticalSectionAlgStrategy.cpp:199-218 | the queue is not empty; the lock goes to a strictly earlier request, least of all pending; no request is lost |
| MaekawaArbiter.RelinquishGoesToLowest | src/CriticalSectionAlg/MKWCriticalSectionAlgStrategy.cpp:199-218 | the new holder has the lowest timestamp, then sender, of those waiting, and a lower one than the old holder |
| MaekawaArbiter.ReleaseMeaning | src/CriticalSectionAlg/MKWCriticalSectionAlgStrategy.cpp:249-263 | the lock goes to the least waiting request, or becomes free when none waits |
| MaekawaArbiter.ReleaseGoesToLowest | src/CriticalSectionAlg/MKWCriticalSectionAlgStrategy.cpp:249-263 | the new holder has the lowest timestamp, then sender, of those waiting, and is no longer queued |
| MaekawaArbiter.QueueBound | src/CriticalSectionAlg/MKWCriticalSectionAlgStrategy.cpp:133-141 | a locked arbiter of n clients has at most n-1 requests waiting |
| MaekawaArbiter.RequestKeptIffRoom | src/messagequeue.cpp:11-21 | a request is kept exactly when the arbiter is free or its queue is not full |
| MaekawaSystem.Project | src/CriticalSectionAlg/MKWCriticalSectionAlgStrategy.cpp:50-265 | every step of the system is, for each requester and arbiter, one of seventeen acts on what they share |
| MaekawaSystem.ChannelsAreQueues | src/node/client.cpp:356-393 | a step takes at most the first message of a channel, and what it sends goes to the end |
| MaekawaSystem.HeadExpected | src/CriticalSectionAlg/MKWCriticalSectionAlgStrategy.cpp:122-265 | RELINQUISH and RELEASE come from the holder, a REQUEST from a client with none pending |
| MaekawaSystem.StepInv | src/CriticalSectionAlg/MKWCriticalSectionAlgStrategy.cpp:50-265 | the system invariant is kept by every timely step |
| MaekawaSafety.MutualExclusion | src/CriticalSectionAlg/MKWCriticalSectionAlgStrategy.cpp:50-265 | for any pairwise intersecting quorums, no timely run has two clients inside |
| MaekawaSafety.OneToken | src/CriticalSectionAlg/MKWCriticalSectionAlgStrategy.cpp:122-265 | a locked arbiter has exactly one grant token, its holder's; a free one has none |
| MaekawaSafety.RequestConserved | src/CriticalSectionAlg/MKWCriticalSectionAlgStrategy.cpp:133-263 | a pending request is in exactly one place, once; a free arbiter has an empty queue; at most n-1 wait |
| MaekawaSafety.InquireIffPreceded | src/CriticalSectionAlg/MKWCriticalSectionAlgStrategy.cpp:149-162 | a node is being asked exactly when it holds the lock and a waiting request goes before its own |
| MaekawaSafety.RelinquishNeverPopsEmpty | src/CriticalSectionAlg/MKWCriticalSectionAlgStrategy.cpp:206-209 | a RELINQUISH finds a waiting request that precedes the holder's |
| MaekawaSafety.NewRequestGoesLast | src/CriticalSectionAlg/MKWCriticalSectionAlgStrategy.cpp:52-52 | a new request comes after every request pending at the client's own arbiter |
| MaekawaSafety.RelinquishRightIffTimely | src/CriticalSectionAlg/MKWCriticalSectionAlgStrategy.cpp:184-192 | giving the lock back keeps the invariant exactly when the grant is still recorded and the client waits; it keeps the token count right exactly when the grant is recorded |
| MaekawaSafety.DecidesRight | src/CriticalSectionAlg/MKWCriticalSectionAlgStrategy.cpp:184-184 | the decision to give the lock back is right exactly when the grant is recorded at that time |
| MaekawaSafety.OnlyEnteringSpoilsDecision | src/CriticalSectionAlg/MKWCriticalSectionAlgStrategy.cpp:184-192 | between the decision and the RELINQUISH a step makes the decision wrong exactly when the client enters |
| MaekawaSafety.LateYieldLosesLock | src/CriticalSectionAlg/MKWCriticalSectionAlgStrategy.cpp:184-218 | a RELINQUISH sent after entering passes the arbiter's lock to another client while its sender is inside |
| MaekawaOrder.OrderlyStep | src/node/client.cpp:356-393 | steps that treat requesters' messages before arbiters' keep to the order of the sockets |
| MaekawaCalm.MeetingInOneIsSafe | src/CriticalSectionAlg/MKWCriticalSectionAlgStrategy.cpp:122-316 | if one arbiter is the whole intersection of every two quorums, every run is timely and keeps mutual exclusion |
| MaekawaRound.Round | src/CriticalSectionAlg/MKWCriticalSectionAlgStrategy.cpp:50-86 | a client alone can go in and out, and leaves nothing behind but its number |
| MaekawaLate.LateRun | src/CriticalSectionAlg/MKWCriticalSectionAlgStrategy.cpp:167-218 | for any three clients whose requests are ordered so, the late RELINQUISH lets the second and the third be inside together |
| MaekawaExact.LateRelinquishBreaksMutualExclusion | src/CriticalSectionAlg/MKWCriticalSectionAlgStrategy.cpp:172-192 | in every other configuration some run, in the program's order and with every RELINQUISH sent while the grant is recorded, ends with two clients inside |
| MaekawaExact.ExclusiveIffMeetInOne | src/CriticalSectionAlg/MKWCriticalSectionAlgStrategy.cpp:50-316 | all runs keep mutual exclusion exactly when one arbiter is all that any two quorums have in common; likewise all runs in the program's order |
| MaekawaBoard.PlayIsRun | src/node/client.cpp:356-393 | what is computed for two clients is a run of the system, in the program's order |
| MaekawaRace.StaleInquireBreaksMutualExclusion | src/CriticalSectionAlg/MKWCriticalSectionAlgStrategy.cpp:167-218 | a run in the program's order, in which every INQUIRE is decided on and answered at once, ends with two clients inside |
| CyclicQuorums.WindowsMeetIffMajority | README.md:34-35 | all windows of k consecutive ids modulo n meet each other exactly when 2k > n |
| CyclicQuorums.DeployedQuorums | config/config_clients.txt:7-11 | the windows of three among five are the configured quorums |
| CyclicQuorums.DeployedIsSafe | README.md:31-35 | timely runs of the deployed configuration keep mutual exclusion |
| CyclicQuorums.DeployedBreaks | config/config_clients.txt:7-11 | some run of the deployed configuration, in the program's order, ends with two clients inside |
| ReplicaNode.Server.HandleReadRequest | src/node/server.cpp:252-270 | the answer is the last line of the named file that is not blank, empty if there is no file, and no file changes |
| ReplicaNode.Server.HandleWriteRequest | src/node/server.cpp:272-294 | the named file keeps its old text and gets the line and a newline after it; no other file changes |
| ReplicaNode.Client.RequestWrite | src/node/client.cpp:682-689 | every server is sent a text whose parts at `#` are the file name and a line, and the parts of that at `,` the client id and the timestamp; every flag is cleared |
| ReplicaNode.Client.CheckAllServersDoneWriteRequest | src/node/client.cpp:697-702 | true exactly when every server has acknowledged |
| ReplicaNode.Client.ReceiveWriteResult | src/node/client.cpp:704-709 | the acknowledging server's flag is set and no other |
| ReplicaNode.Client.RequestRead | src/node/client.cpp:633-638 | the file name is sent and the flag of an earlier READ is cleared |
| ReplicaNode.Client.ReceiveReadResult | src/node/client.cpp:645-655 | the response is recorded and the READ is over |
| FileLock.StepInv | src/node/client.cpp:603-606 | every allowed step of the lock keeps its invariant, whichever algorithm it runs |
| FileLock.InsideChanges | src/node/client.cpp:603-606 | a client comes in by its own entering only, at once, and goes out by its own leaving only |
| FileLock.Excludes | README.md:14-17 | two clients are never inside together, whichever algorithm the lock runs |
| Replication.StepInv | src/node/client.cpp:608-702 | the agreement of replicas is kept by every step of lock, clients and servers |
| Replication.ReplicasAgree | src/node/client.cpp:682-702 | with nobody inside, every replica is the initial text, unchanged, followed by the line of each WRITE and a newline, once, in the order of the writes |
| Replication.ContentIsTextAndLines | src/utils.cpp:102-112 | appending lines one after another leaves the old text in front and each line with a newline behind it |
| Replication.ReplicasDuringWrite | src/node/server.cpp:272-294 | at any time a replica is the initial text and the lines of the completed writes, with or without the line being written |
| Replication.ReadSeesLastWrite | src/node/server.cpp:252-270 | a READ from any server returns the line of the last completed WRITE, or the last line of the initial text that is not blank |
| Replication.RequestEnds | src/node/client.cpp:633-702 | the wait of a WRITE to m servers is over exactly when 2m of its messages have been treated, that of a READ when two have; until then one more can be treated |
| Bytes.IntRoundTrip | src/utils.cpp:18-28 | writing a 32-bit number and reading it gives it back |
| Bytes.CharRoundTrip | src/utils.cpp:18-28 | reading four bytes and writing the number gives them back |
| Bytes.LowByteFirst | src/utils.cpp:18-22 | the byte at offset k counts 256 to the power k, negative numbers modulo 2 to the power 32 |
| PacketCodec.DecodeEncode | src/packet.cpp:78-130 | decoding an encoded packet, whatever follows it, gives the packet |
| PacketCodec.EncodeLayout | include/distributed-me/packet.h:35-40 | length, type, sender, receiver and timestamp stand at offsets 0, 4, 8, 12 and 16, and the text from 20 on |
| PacketCodec.EncodeDecode | src/packet.cpp:115-130 | a decoded packet encodes to the bytes it was read from |
| PacketCodec.SplitIffEncoded | src/packet.cpp:132-142 | splitting what was read gives a list of packets exactly when it is their encodings in a row |
| PacketCodec.ToMessage | src/packet.cpp:78-94 | as much of the encoding as fits is written, nothing beyond it, and the rest is counted |
| PacketCodec.SplitReadData | src/packet.cpp:132-142 | the loop ends and computes the splitting |
| TextCodec.SplitString | src/utils.cpp:196-204 | the loop computes the splitting |
| TextCodec.SplitJoinIff | src/utils.cpp:196-204 | joining and splitting gives a list back exactly when no element has the delimiter and the last is not empty |
| TextCodec.JoinSplit | src/utils.cpp:196-204 | splitting loses nothing but a delimiter at the very end |
| TextCodec.JoinLast | src/node/server.cpp:237-242 | one delimiter stands between two names that follow each other, and none elsewhere |
| TextCodec.JoinFiles | src/node/server.cpp:237-242 | the loop joins the file names with `#` |
| TextCodec.AtoiToString | src/CriticalSectionAlg/RACriticalSectionAlgStrategy.cpp:100-107 | parsing a printed integer, of either sign, gives it back |
| TextCodec.DecimalIsPositional | src/CriticalSectionAlg/RACriticalSectionAlgStrategy.cpp:32-40 | a number is printed with its most significant digit first and no leading 0 |
| TextCodec.SignComesFirst | src/CriticalSectionAlg/RACriticalSectionAlgStrategy.cpp:32-40 | a minus sign precedes the digits of a negative number, and no other |
| TextCodec.AtoiMeaning | src/CriticalSectionAlg/RACriticalSectionAlgStrategy.cpp:102-107 | for every text: white space is skipped, one sign is read, and the digits up to the first other byte are the value |
| TextCodec.ParsePrintIff | src/node/client.cpp:446-450 | the receiver reads file, sender and number as sent exactly when the file name has no `;` |
| TextCodec.PayloadReads | src/CriticalSectionAlg/RACriticalSectionAlgStrategy.cpp:32-40 | the parts of the text at `;` are the file name and the numbers, and the parts of these at `#` the id and then the number |
| TextCodec.ParsePrintWriteIff | src/node/server.cpp:279-282 | the server reads the file and the line as sent exactly when the file name has no `#` |
| TextCodec.WriteReads | src/node/client.cpp:683-685 | the parts at `#` are the file name and the line, and the parts of the line at `,` the client id and then the timestamp |
| TextCodec.LineIsShort | src/node/client.cpp:683-685 | a written line is non-empty, on one line, and short |
| FileText.ReadLastLine | src/utils.cpp:66-83 | the loop over chunks computes the last line |
| FileText.LastLineIsLastNonBlank | src/utils.cpp:66-83 | of a text without NUL, split at the newlines: the last part that is not empty, or its last piece when pieces of 1023 bytes are cut off in front |
| FileText.BlankLinesAreSkipped | src/utils.cpp:70-75 | any number of blank lines after a line of at most 1023 bytes changes nothing |
| FileText.NulEndsFile | src/utils.cpp:70-73 | a NUL at the start of a line ends the reading |
| FileText.ReadAfterAppendIff | src/utils.cpp:66-112 | an appended plain line is read back exactly when it has at most 1023 bytes, whatever whole lines came before |

## Left out

- Sockets, threads, sleeping, polling and logging: handlers are steps, waits are guards, sockets are FIFO channels.
- Reads that cut a packet in two and messages longer than the 8192-byte buffer: a read holds whole packets; decoding anything else gives None.
- Liveness of Maekawa's algorithm: a waiter whose request caused an INQUIRE and is then overtaken gets no FAILED, so no claim of progress is made.
- MaekawaSafety.MutualExclusion: states timely runs only, because untimely ones break it in every configuration that `ExclusiveIffMeetInOne` excludes, and queues that hold n-1 requests, as the deployed ones do.
- MaekawaExact.ExclusiveIffMeetInOne: states queues that hold n-1 requests, because a full queue drops a request.
- MaekawaSafety.OneToken: states timely runs and queues that hold n-1 requests, because an untimely RELINQUISH makes a second token and a full queue drops a request.
- MaekawaSafety.RequestConserved: states timely runs and queues that hold n-1 requests, because a full queue drops a request (`RequestKeptIffRoom`).
- MaekawaSafety.InquireIffPreceded: states timely runs and queues that hold n-1 requests, because a request that was dropped can still cause an INQUIRE.
- MaekawaSafety.RelinquishNeverPopsEmpty: states timely runs, because an untimely RELINQUISH can meet an empty queue.
- MaekawaSafety.NewRequestGoesLast: states timely runs and queues that hold n-1 requests, like the invariant that it rests on.
- MaekawaSystem.Apply: leaves an arbiter as it is when RELINQUISH meets an empty queue, which the program does not define.
- MaekawaNode.Strategy.constructor: requires every id in the quorum to be a client, because the source would use a socket that does not exist.
- MaekawaNode.Strategy.TreatRelinquishMessage: requires a locked arbiter with a waiting request, because taking the top of an empty queue is undefined; `RelinquishNeverPopsEmpty` shows that it is met.
- The order of self-messages by timestamp across files: `sendMessageToSelf` shares one priority queue, and the model has a FIFO channel for each file.
- The heap inside the priority queue: the queue is a multiset with a least element.
- `set_n_clients`, the LAMPORT option, `LamportClock::updateTimestamp`, configuration parsing, random input, start-up handshakes, echo messages and the end-of-run messages.
- Packet setters: packets are values, and a changed packet is a new one.
- PacketCodec.ToMessage: requires room for the header, because the source writes the header without testing for room.
- ReplicaNode.Server.HandleWriteRequest: requires a `#` followed by some text in the message, because the source takes the second token without testing that there is one.
- The branches of `receiveReadResult` and `receiveWriteResult` for a wrong message type: the caller passes only packets of the right type.
- FileText.LastLine: gives None where a file has no line at all; the program then returns an uninitialised buffer.
- Overflow of sequence numbers in the protocols: they are unbounded there; `WireCarriesRun` speaks of numbers that fit 32 bits.
