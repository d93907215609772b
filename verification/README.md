# Verified models of the atomic-broadcast benchmarks

This project models, in Dafny, the parts of the benchmark suite that are protocols or
algorithms in their own right, and proves what they are there for:

- **Multi-Paxos** (`PaxosTypes`, `RoundRobin`, `LeaderRole`, `LeaderBehaviour`, `AcceptorRole`,
  `ProxyRole`, `ReplicaRole`, `BatcherRole`, `MultiPaxos*`): five roles per node and a network that loses,
  delays, reorders and duplicates messages. The election port is an oracle that may announce
  anything at any time. Safety holds in every state of every run, and
  any majority suffices to make progress from any state.
- **Leader elections**: ballot leader election with the quorum-connected flag
  (`BallotLeaderElection`, `BleConvergence`) and view change (`ViewChange`,
  `ViewChangeSafety`, `ViewChangeDuplication`).
- **The linearizability checker** (`Linearizability*`): the backtracking search with its
  value stack, and locality over all keys.
- **Floyd-Warshall**, plain and blocked (`FloydWarshall`, `BlockedFloydWarshall`).
- **Disk storage** of the Raft log (`Bytes`, `DiskStorage`).
- **Reconfiguration**: segment pull (`SegmentPull`, `SegmentPullRuns`), the client's window
  accounting (`ReconfigClient`) and membership replacement (`Membership`).
- **Wire formats** of Paxos, reconfiguration and Multi-Paxos messages (`WireFormat`,
  `PaxosCodec`, `MultiPaxosCodec`).

Components whose handlers update fields are classes; each method is proved against a function
on the component's state, and the properties over runs are proved about those functions.
Handlers return the messages they send. Constructs that stop the program (failed `expect`,
`unwrap`, underflow, division by zero) appear as an explicit outcome (`None`, `Panicked`,
`false`).

Behaviour of the code that the model keeps although it may surprise:

- Leaders other than the initial one start in Phase 2 at the initial leader's round; the noop
  flush proposes in every phase, and its timer is never cancelled; `next_slot` moves after
  phase 1 only if some vote was reported. Agreement is therefore stated for *good* slots; the
  two counterexample runs show that neither half of that condition can be dropped.
- A replica announces a watermark only if the quotient of watermark and interval, modulo n, is
  its index; with indices 1..n the replica n announces none.
- The plan of a segment pull drops the last len mod n entries. A peer that does not hold the
  previous sequence reports length 0 for it, and then nothing of it is pulled.
- The reconfiguration is proposed when half of the responses have arrived. With fewer than two
  proposals that never happens.
- The disk log file may grow beyond its mapped part; entries there are written but reading them
  panics.

History variables that no handler reads (the phase and watermark recorded in a proposal, the
value recorded in a vote, the views joined and announced, the plans of the pulls, the abstract
log) carry the properties over runs.

## Model

| member | source | states |
|---|---|---|
| `MultiPaxosSafety.RunKeepsInv` | kompact/src/bench/atomic_broadcast/multi_paxos/leader.rs:202-442 | Every step of every node (election oracle, all leader, acceptor, proxy, replica and batcher handlers, noop flush and recover timers) keeps the system invariant, so it holds in every state of every run |
| `MultiPaxosSafety.Agreement` | kompact/src/bench/atomic_broadcast/multi_paxos/leader.rs:183-343 | In every state of every run, for a slot whose proposals were all issued in Phase 2 at or above their round's Phase1a watermark, no two Chosen messages carry different values, across all rounds and proposers |
| `MultiPaxosSafety.GoodSlotMeaning` | kompact/src/bench/atomic_broadcast/multi_paxos/leader.rs:226-248 | The slot condition read off the messages alone: a slot is good iff each of its proposals was issued in Phase 2 and a Phase1a of that proposer and round with a watermark at or below the slot is in the network |
| `MultiPaxosSafety.ChosenBindsLater` | kompact/src/bench/atomic_broadcast/multi_paxos/proxy_leader.rs:107-156 | A value voted for by a majority in some round is the only value proposed for that slot in any later round |
| `MultiPaxosSafety.Validity` | kompact/src/bench/atomic_broadcast/multi_paxos/leader.rs:202-223 | A chosen batch was sent by some batcher: nothing is invented |
| `MultiPaxosSafety.RoundOwnership` | kompact/src/bench/atomic_broadcast/multi_paxos/leader.rs:77-96 | Every proposal that carries a client batch or was issued in Phase 2 is in a round assigned to its issuer, although all leaders but one start in Phase 2 at another node's round |
| `MultiPaxosSafety.ExecutedIsChosen` | kompact/src/bench/atomic_broadcast/multi_paxos/replica.rs:88-148 | What a replica has executed is filled, slot by slot, with values that were chosen |
| `MultiPaxosSafety.ReplicaConsistency` | kompact/src/bench/atomic_broadcast/multi_paxos/replica.rs:151-198 | Executed sequences of any two replicas are prefixes of one another, whatever was lost, duplicated or reordered, when the slots both executed are good |
| `MultiPaxosSafety.ExecutedOnlyExtends` | kompact/src/bench/atomic_broadcast/multi_paxos/replica.rs:88-198 | Along every run a replica only extends what it executed |
| `MultiPaxosSafety.WatermarkSoundness` | kompact/src/bench/atomic_broadcast/multi_paxos/replica.rs:88-148 | Every slot below a watermark in flight or held by a leader was executed, with a chosen value, by some replica |
| `MultiPaxosProgress.AnyMajorityChooses` | kompact/src/bench/atomic_broadcast/multi_paxos/proxy_leader.rs:67-156 | From any state, a proposal its proxy has not seen can be chosen with the help of any set of more than half of the acceptors that have not promised a later round; no others are needed |
| `MultiPaxosProgress.AnyMajorityElects` | kompact/src/bench/atomic_broadcast/multi_paxos/leader.rs:282-343 | From any state, a leader in phase 1 can complete it in its round with any set of more than half of the acceptors that have not promised a later round, whatever they have voted for |
| `MultiPaxosCounterexamples.FlushOutsidePhase2Disagrees` | kompact/src/bench/atomic_broadcast/multi_paxos/leader.rs:143-165 | A concrete run of two nodes in which the noop flush fires outside Phase 2 and two different values are chosen for one slot: the Phase 2 part of the slot condition cannot be dropped |
| `MultiPaxosCounterexamples.ProposalBelowWatermarkDisagrees` | kompact/src/bench/atomic_broadcast/multi_paxos/leader.rs:313-343 | A concrete run of two nodes in which a leader proposes below its phase-1 watermark, because next_slot moves only when a vote was reported, and two values are chosen: the watermark part cannot be dropped |
| `MultiPaxosProposing.SafeValueIsSafe` | kompact/src/bench/atomic_broadcast/multi_paxos/leader.rs:183-199 | A value picked from a majority of Phase1b reports for a good slot at or above the watermark is safe: for each earlier round a majority can no longer choose anything else there |
| `MultiPaxosProposing.UnreportedIsSafe` | kompact/src/bench/atomic_broadcast/multi_paxos/leader.rs:183-199 | If a majority reports no vote for a covered slot, every value is safe for it |
| `MultiPaxosProposing.CompletionKeepsInv` | kompact/src/bench/atomic_broadcast/multi_paxos/leader.rs:282-343 | Completing phase 1, recovering the slots from the watermark on and draining the parked batches keeps the invariant |
| `MultiPaxosProposing.BatchKeepsInv` | kompact/src/bench/atomic_broadcast/multi_paxos/leader.rs:364-383 | Handling a client batch in any phase keeps the invariant; in Phase 2 this needs that the batch was routed to the owner of the leader's round |
| `MultiPaxosProposing.FlushKeepsInv` | kompact/src/bench/atomic_broadcast/multi_paxos/leader.rs:143-165 | A noop flush, in Phase 2 or not, keeps the invariant (outside Phase 2 it takes the slot out of the good ones) |
| `MultiPaxosLeaderSteps.NewRoundIsFresh` | kompact/src/bench/atomic_broadcast/multi_paxos/leader.rs:251-279 | A later owned round is fresh: no Phase1a of it was ever sent and this leader has proposed nothing in it |
| `MultiPaxosLeaderSteps.ElectionKeepsInv` | kompact/src/bench/atomic_broadcast/multi_paxos/leader.rs:251-279 | Any announcement of the election port at any time keeps the invariant |
| `MultiPaxosPreservation.Phase1aKeepsInv` | kompact/src/bench/atomic_broadcast/multi_paxos/acceptor.rs:63-106 | Promising a round and reporting votes keeps the invariant; the report is exact from the watermark on |
| `MultiPaxosPreservation.Phase2aKeepsInv` | kompact/src/bench/atomic_broadcast/multi_paxos/acceptor.rs:108-151 | Voting or refusing keeps the invariant |
| `MultiPaxosPreservation.ProposeKeepsInv` | kompact/src/bench/atomic_broadcast/multi_paxos/proxy_leader.rs:67-105 | Forwarding at most one proposal per slot and round keeps the invariant |
| `MultiPaxosPreservation.Phase2bKeepsInv` | kompact/src/bench/atomic_broadcast/multi_paxos/proxy_leader.rs:107-156 | A Chosen message is sent only with a majority of distinct acceptors behind it |
| `MultiPaxosPreservation.ChosenKeepsInv` | kompact/src/bench/atomic_broadcast/multi_paxos/replica.rs:151-198 | Storing and executing chosen values keeps the invariant, in every arrival order |
| `MultiPaxosPreservation.BatcherKeepsInv` | kompact/src/bench/atomic_broadcast/multi_paxos/batcher.rs:56-135 | Every batcher step keeps that batches in flight are addressed to the owner of a round some leader has announced |
| `LeaderRole.Leader.constructor` | kompact/src/bench/atomic_broadcast/multi_paxos/leader.rs:70-111 | Initial state: leader n in Phase 1, all others in Phase 2 at leader n's first round |
| `LeaderBehaviour.StartMeaning` | kompact/src/bench/atomic_broadcast/multi_paxos/leader.rs:70-111 | The common start round is the first one that leader n owns; only that leader is in phase 1 |
| `LeaderRole.Leader.SendPhase1a` | kompact/src/bench/atomic_broadcast/multi_paxos/leader.rs:226-248 | Phase1a with the current round and watermark; pending batches and old reports are dropped |
| `LeaderRole.Leader.OnLeaderChange` | kompact/src/bench/atomic_broadcast/multi_paxos/leader.rs:251-279 | Next owned round and phase 1 when elected, Inactive otherwise |
| `LeaderBehaviour.ElectionMeaning` | kompact/src/bench/atomic_broadcast/multi_paxos/leader.rs:251-279 | Being elected, in any phase, starts phase 1 in the least later owned round, with reports and parked batches dropped; not being elected only silences the leader |
| `LeaderRole.Leader.MaxPhase1bSlot` | kompact/src/bench/atomic_broadcast/multi_paxos/leader.rs:174-180 | The highest slot of one report, None iff the report is empty |
| `LeaderRole.Leader.MaxReportedSlot` | kompact/src/bench/atomic_broadcast/multi_paxos/leader.rs:305-310 | The highest slot over all reports, in any visiting order |
| `LeaderRole.Leader.SafeValue` | kompact/src/bench/atomic_broadcast/multi_paxos/leader.rs:183-199 | The value of a reported vote with the highest round for the slot, or Noop iff none was reported |
| `LeaderRole.Leader.RecoverSlots` | kompact/src/bench/atomic_broadcast/multi_paxos/leader.rs:313-332 | One proposal with a safe value for each slot from the watermark to the highest reported one |
| `LeaderRole.Leader.OnPhase1b` | kompact/src/bench/atomic_broadcast/multi_paxos/leader.rs:282-343 | Stores the report of the current round in phase 1; with reports of more than half of the acceptors, sends what `LeaderBehaviour.CompletionSends` lists and enters Phase 2 |
| `LeaderBehaviour.ReportsCompleteIff` | kompact/src/bench/atomic_broadcast/multi_paxos/leader.rs:287-295 | Phase 1 is complete exactly when more than half of the acceptors have reported in the current round; before that a report is only stored |
| `LeaderBehaviour.OtherReportsIgnored` | kompact/src/bench/atomic_broadcast/multi_paxos/leader.rs:282-291 | Reports of other rounds or outside phase 1 change nothing |
| `LeaderBehaviour.CompletionSends` | kompact/src/bench/atomic_broadcast/multi_paxos/leader.rs:305-341 | Completion sends, message by message: one recovered value for each slot from the watermark on, then the parked batches in order from the next free slot on, and nothing else; that slot is one after the highest reported one, or unchanged if nothing was reported |
| `LeaderBehaviour.ParkedBatchesAreProposed` | kompact/src/bench/atomic_broadcast/multi_paxos/leader.rs:338-383 | Batches that arrive one after another during phase 1 are proposed on completion, each once, in arrival order at consecutive slots |
| `LeaderRole.Leader.OnNoopFlush` | kompact/src/bench/atomic_broadcast/multi_paxos/leader.rs:143-165 | Proposes a noop in every phase |
| `LeaderBehaviour.FlushMeaning` | kompact/src/bench/atomic_broadcast/multi_paxos/leader.rs:143-165 | A flush proposes a noop at the next slot in whatever phase the leader is, and takes that slot |
| `LeaderRole.Leader.OnBatch` | kompact/src/bench/atomic_broadcast/multi_paxos/leader.rs:364-383 | Refused when inactive, parked in phase 1, proposed at next_slot in Phase 2 |
| `LeaderBehaviour.BatchesAreParked` | kompact/src/bench/atomic_broadcast/multi_paxos/leader.rs:375-378 | Any sequence of batches in phase 1 is parked in order and nothing is sent |
| `LeaderBehaviour.BatchesAreProposed` | kompact/src/bench/atomic_broadcast/multi_paxos/leader.rs:202-223 | Any sequence of batches in Phase 2 is proposed, each batch once, at consecutive slots in arrival order |
| `LeaderBehaviour.BatchesAreRefused` | kompact/src/bench/atomic_broadcast/multi_paxos/leader.rs:369-374 | An inactive leader sends each batch of any sequence back to its own batcher and keeps nothing |
| `LeaderRole.Leader.OnNack` | kompact/src/bench/atomic_broadcast/multi_paxos/leader.rs:405-425 | Ignores old rounds, only adopts the round when inactive, else restarts phase 1 in a later owned round |
| `LeaderBehaviour.NackMeaning` | kompact/src/bench/atomic_broadcast/multi_paxos/leader.rs:405-425 | An active leader starts over in the second round after the nack's that it owns (the round advances twice), an inactive one only remembers the round, older nacks are ignored |
| `LeaderRole.Leader.OnWatermark` | kompact/src/bench/atomic_broadcast/multi_paxos/leader.rs:428-430 | Watermarks only grow |
| `LeaderBehaviour.WatermarkMeaning` | kompact/src/bench/atomic_broadcast/multi_paxos/leader.rs:428-430 | The new watermark is the higher of the two and nothing else changes |
| `LeaderRole.Leader.OnRecover` | kompact/src/bench/atomic_broadcast/multi_paxos/leader.rs:433-442 | An active leader restarts phase 1 |
| `LeaderBehaviour.RecoverMeaning` | kompact/src/bench/atomic_broadcast/multi_paxos/leader.rs:433-442 | An active leader starts over in its next owned round, an inactive one does not move |
| `LeaderRole.Leader.OnInfoRequest` | kompact/src/bench/atomic_broadcast/multi_paxos/leader.rs:386-402 | Only an active leader tells its round |
| `LeaderBehaviour.InfoMeaning` | kompact/src/bench/atomic_broadcast/multi_paxos/leader.rs:386-402 | There is an answer iff the leader is active, and it names the leader's round to the asking batcher |
| `AcceptorRole.Acceptor.CollectVotes` | kompact/src/bench/atomic_broadcast/multi_paxos/acceptor.rs:63-106 | Exactly the votes at or above the watermark, ascending by slot |
| `AcceptorRole.Acceptor.OnPhase1a` | kompact/src/bench/atomic_broadcast/multi_paxos/acceptor.rs:63-106 | Nack below the promised round, else promise and exact report |
| `AcceptorRole.Acceptor.OnPhase2a` | kompact/src/bench/atomic_broadcast/multi_paxos/acceptor.rs:108-151 | Nack below the promised round, else the vote replaces the slot's vote |
| `AcceptorRole.AnsweredIff` | kompact/src/bench/atomic_broadcast/multi_paxos/acceptor.rs:63-151 | A promise or a vote is given iff the round is not below the promised one, a nack tells the promised round, and the promised round becomes the higher of the two |
| `AcceptorRole.VotesAreLastAccepted` | kompact/src/bench/atomic_broadcast/multi_paxos/acceptor.rs:108-151 | After any sequence of proposals the vote of a slot is its last proposal that was not below any round seen before; other slots keep their votes; the promised round is the highest one seen |
| `AcceptorRole.MaxVotedKept` | kompact/src/bench/atomic_broadcast/multi_paxos/acceptor.rs:131-138 | max_voted_slot stays the highest slot voted in |
| `ProxyRole.ProxyLeader.OnPropose` | kompact/src/bench/atomic_broadcast/multi_paxos/proxy_leader.rs:67-105 | One Phase2a per slot and round, duplicates ignored |
| `ProxyRole.ForwardedOnce` | kompact/src/bench/atomic_broadcast/multi_paxos/proxy_leader.rs:67-104 | The first proposal of a slot and round is forwarded and opens an empty tally; later ones are ignored; other tallies do not change |
| `ProxyRole.ProxyLeader.OnPhase2b` | kompact/src/bench/atomic_broadcast/multi_paxos/proxy_leader.rs:107-156 | Counts distinct acceptors; Chosen once, exactly when more than half have voted (`ProxyRole.ChosenOnceByMajority`) |
| `ProxyRole.ChosenIffMajority` | kompact/src/bench/atomic_broadcast/multi_paxos/proxy_leader.rs:130-153 | A vote for a pending tally sends Chosen and closes it iff, with the voter, more than half of the acceptors have voted |
| `ProxyRole.ChosenOnceByMajority` | kompact/src/bench/atomic_broadcast/multi_paxos/proxy_leader.rs:107-156 | For any order and repetition of votes: Chosen is sent once if the distinct voters are more than half, and not at all otherwise |
| `Common.MajorityIff` | kompact/src/bench/atomic_broadcast/multi_paxos/proxy_leader.rs:47 | A count reaches the majority iff it is more than half; all roles and both elections use this number |
| `ReplicaRole.HandleChosenKeepsCounters` | kompact/src/bench/atomic_broadcast/multi_paxos/replica.rs:151-198 | The first value for a slot is stored and kept; num_chosen is the number of filled slots, execution stops at the first hole, and the two counters differ iff a chosen slot lies beyond that hole |
| `ReplicaRole.Replica.ExecuteLog` | kompact/src/bench/atomic_broadcast/multi_paxos/replica.rs:88-148 | Executes up to the first hole, announces exactly the watermarks assigned to this replica, and answers, only at the leader's replica, every command of every executed batch in slot order (`ReplicaRole.DecidedInSlotOrder`) |
| `ReplicaRole.Replica.OnChosen` | kompact/src/bench/atomic_broadcast/multi_paxos/replica.rs:151-198 | First value for a slot is kept, later ones ignored; all commands executed now are answered at the leader's replica; recover timer started as coded; the replica invariant is kept |
| `ReplicaRole.DecidedInSlotOrder` | kompact/src/bench/atomic_broadcast/multi_paxos/replica.rs:97-124 | The commands executed in a range are those before a slot, then all commands of that slot's batch in order (none for a noop or a hole), then those after it |
| `ReplicaRole.AnnouncedExactly` | kompact/src/bench/atomic_broadcast/multi_paxos/replica.rs:124-144 | Announced are exactly the passed multiples of the interval whose quotient modulo the number of replicas is this replica's index, ascending |
| `ReplicaRole.RecoverTimerStartsIff` | kompact/src/bench/atomic_broadcast/multi_paxos/replica.rs:151-198 | A recover timer is started iff a new value leaves a chosen slot beyond the first hole, and none was beyond it before or execution has moved |
| `ReplicaRole.Replica.OnLeaderChange` | kompact/src/bench/atomic_broadcast/multi_paxos/replica.rs:291-302 | The replica of the announced leader is the one that answers from then on |
| `ReplicaRole.BufferMap.Pad` | kompact/src/bench/atomic_broadcast/multi_paxos/util.rs:60-64 | Pads with empty entries, keeps the others |
| `ReplicaRole.BufferMap.Get` | kompact/src/bench/atomic_broadcast/multi_paxos/util.rs:66-77 | The buffer behaves like a map from slots to values |
| `ReplicaRole.BufferMap.Put` | kompact/src/bench/atomic_broadcast/multi_paxos/util.rs:79-92 | The map with one key replaced, also beyond the end of the buffer, which then grows by growSize beyond the key; the largest key is kept |
| `BatcherRole.Batcher.OnBatchTimer` | kompact/src/bench/atomic_broadcast/multi_paxos/batcher.rs:107-135 | A non-empty batch goes to the owner of the known round |
| `BatcherRole.Batcher.OnNotLeader` | kompact/src/bench/atomic_broadcast/multi_paxos/batcher.rs:56-69 | A refused batch is kept and the leaders are asked |
| `BatcherRole.Batcher.OnLeaderInfo` | kompact/src/bench/atomic_broadcast/multi_paxos/batcher.rs:71-105 | A higher round is adopted; if its owner differs, all kept batches go to the new owner, unchanged and in order |
| `BatcherRole.CommandsConserved` | kompact/src/bench/atomic_broadcast/multi_paxos/batcher.rs:56-183 | In every run the commands sent, followed by those still waiting, are exactly those that arrived, and the batches sent again, followed by those still kept, are exactly the refused ones, both in order: no command is lost, doubled or reordered |
| `BatcherRole.ArrivedCounts` | kompact/src/bench/atomic_broadcast/multi_paxos/batcher.rs:179-183 | Each command counts as often as it was submitted |
| `BatcherRole.RefusedCounts` | kompact/src/bench/atomic_broadcast/multi_paxos/batcher.rs:56-69 | Each batch counts as often as it was refused |
| `BatcherRole.FlushMeaning` | kompact/src/bench/atomic_broadcast/multi_paxos/batcher.rs:107-135 | The whole growing batch goes to the owner of the known round, nothing if it is empty |
| `BatcherRole.InfoMeaning` | kompact/src/bench/atomic_broadcast/multi_paxos/batcher.rs:71-105 | Batches sent again followed by those kept are those that were kept; all of them are sent, to the owner of the new round, when that is another leader than before |
| `RoundRobin.NextRoundIsLeastOwned` | kompact/src/bench/atomic_broadcast/multi_paxos/util.rs:23-31 | next_classic_round is the least later round that leader() assigns to the given leader |
| `RoundRobin.FirstRoundOwner` | kompact/src/bench/atomic_broadcast/multi_paxos/util.rs:14-31 | The common start round n belongs to leader n |
| `RoundRobin.LeadersTakeTurns` | kompact/src/bench/atomic_broadcast/multi_paxos/util.rs:14-21 | Consecutive rounds belong to consecutive leaders, from n back to 1 |
| `LinearizabilityChecker.AllLinearizable` | shared_rust/src/lib.rs:396-405 | On complete histories with distinct timestamps per key and one operation per sender per key: true iff one total order over the operations of all keys respects global real time and register semantics from 0 |
| `LinearizabilityLocality.Locality` | shared_rust/src/lib.rs:396-405 | Locality of linearizability: a global linearization exists iff each key has one, although keys are searched separately |
| `LinearizabilitySearch.IsLinearizable` | shared_rust/src/lib.rs:407-439 | Terminates on every input; on a complete trace the answer is whether a legal real-time order from the top of the stack exists; on true the stack has grown by the writes of such an order, on false it is as before |
| `LinearizabilitySearch.GetMinimalOps` | shared_rust/src/lib.rs:441-452 | The invocations before the first response, in order |
| `LinearizabilitySearch.RemoveOp` | shared_rust/src/lib.rs:469-474 | The trace without the events of that sender |
| `LinearizabilitySearch.MinimalMeansFirst` | shared_rust/src/lib.rs:441-452 | In a sorted trace the scan returns an event iff it is an invocation earlier than every response |
| `LinearizabilitySearch.WithoutIsKeyTrace` | shared_rust/src/lib.rs:469-474 | Removing an operation leaves a complete sorted trace |
| `LinearizabilityChecker.SortedGroup` | shared_rust/src/lib.rs:396-399 | Grouping by key and sorting by time gives a sorted complete trace with exactly the key's operations |
| `BallotLeaderElection.AnnouncementsIncrease` | kompact/src/bench/atomic_broadcast/ble.rs:134-196 | In every run of arbitrary replies and timeouts, from every state, the announced ballots strictly increase and exceed a leader known at the start, also across the gap after a missed leader; the leader is always the ballot announced last; the own ballot never decreases |
| `BallotLeaderElection.TimeoutIsMonotone` | kompact/src/bench/atomic_broadcast/ble.rs:185-196 | One timeout: own ballot never falls, an announcement is above the last one, and there is one exactly when the leader becomes another ballot |
| `BallotLeaderElection.TopBallot` | kompact/src/bench/atomic_broadcast/ble.rs:134-143 | The highest candidate ballot, or the default one |
| `BallotLeaderElection.BallotLeaderComp.constructor` | kompact/src/bench/atomic_broadcast/ble.rs:64-112 | The least number above half of all nodes as majority, own ballot from the initial leader or (0, pid) |
| `BallotLeaderElection.BallotLeaderComp.OnCheckLeader` | kompact/src/bench/atomic_broadcast/ble.rs:134-163 | The loop over the replies finds the top candidate; a lower top makes the server outbid its missing leader, another top is announced |
| `BallotLeaderElection.BallotLeaderComp.OnHbTimeout` | kompact/src/bench/atomic_broadcast/ble.rs:185-196 | Below a quorum only the flag drops, else the leader is checked with the own ballot included |
| `BallotLeaderElection.BallotLeaderComp.OnRequest` | kompact/src/bench/atomic_broadcast/ble.rs:295-304 | The reply that the lock-step rounds exchange: own ballot and flag |
| `BallotLeaderElection.BallotLeaderComp.OnReply` | kompact/src/bench/atomic_broadcast/ble.rs:305-317 | A reply of the current round is stored behind the others, replies of other rounds are ignored (`BallotLeaderElection.CollectsCurrentReplies`) |
| `BallotLeaderElection.CollectsCurrentReplies` | kompact/src/bench/atomic_broadcast/ble.rs:305-317 | Over any run of replies the collected ones are those already there followed by exactly the replies of the current round in arrival order, and nothing else changes |
| `BallotLeaderElection.CurrentMembers` | kompact/src/bench/atomic_broadcast/ble.rs:314-316 | A reply is collected iff it arrived tagged with the current round |
| `BallotLeaderElection.TimeoutsNumberRounds` | kompact/src/bench/atomic_broadcast/ble.rs:165-196 | In every run the round number counts the timeouts, so replies to earlier requests are stale |
| `BleConvergence.SettledFromThirdRound` | kompact/src/bench/atomic_broadcast/ble.rs:134-196 | On every fixed graph and from any ballots, leaders and flags, with the replies of each round handled in any order and mixed with stale ones, from the third lock-step round on every server that reaches more than half follows the highest ballot among itself and its quorum-connected neighbours |
| `BleConvergence.NothingChangesAfterThirdRound` | kompact/src/bench/atomic_broadcast/ble.rs:134-196 | No server changes ballot or leader after the third round |
| `BleConvergence.ElectedLeaders` | kompact/src/bench/atomic_broadcast/ble.rs:134-196 | The elected process is quorum-connected and seen by its follower, and the highest quorum-connected server has elected itself |
| `BleConvergence.SomeServerLeads` | kompact/src/bench/atomic_broadcast/ble.rs:134-196 | If any server is quorum-connected, some quorum-connected server leads after three rounds |
| `BleConvergence.TwoRoundsAreNotEnough` | kompact/src/bench/atomic_broadcast/ble.rs:134-196 | A cluster of four servers, three of them in a star, that is not settled after two rounds: three is exact |
| `BleConvergence.DeliveredReplies` | kompact/src/bench/atomic_broadcast/ble.rs:305-317 | Whatever arrives in a round, the collected replies are one answer of each linked server |
| `ViewChangeSafety.RunKeepsInv` | kompact/src/bench/atomic_broadcast/vr_le.rs:123-363 | Every timeout, heartbeat reply and delivery keeps the invariant that counters count distinct processes that joined, over all runs without duplication |
| `ViewChangeSafety.AnnouncedAfterMajority` | kompact/src/bench/atomic_broadcast/vr_le.rs:339-363 | A process announces itself leader of a view only when it and a majority of distinct processes have joined that view |
| `ViewChangeDuplication.DuplicatesAnnounceWithoutMajority` | kompact/src/bench/atomic_broadcast/vr_le.rs:295-363 | A run of four processes in which packets are delivered repeatedly and a view is announced that only two have joined: the result needs a network that does not duplicate |
| `ViewChangeSafety.ViewsHaveOneLeader` | kompact/src/bench/atomic_broadcast/vr_le.rs:144-151 | No two processes ever announce the same view number |
| `ViewChangeSafety.AnnouncedViewsIncrease` | kompact/src/bench/atomic_broadcast/vr_le.rs:339-363 | Each process's announced views strictly increase |
| `ViewChangeSafety.AnnouncedViewsShareJoiner` | kompact/src/bench/atomic_broadcast/vr_le.rs:295-363 | Any two announced views were joined by a common process |
| `ViewChangeSafety.JoinedMeansEntered` | kompact/src/bench/atomic_broadcast/vr_le.rs:295-312 | A view recorded as joined is one the process was in at an earlier point of the run |
| `ViewChange.VRLeaderElectionComp.constructor` | kompact/src/bench/atomic_broadcast/vr_le.rs:43-76 | View 0, default ballot elected, the least number above half of all views as majority |
| `ViewChange.VRLeaderElectionComp.GetNextView` | kompact/src/bench/atomic_broadcast/vr_le.rs:144-151 | Views take turns over the list of processes |
| `ViewChange.VRLeaderElectionComp.StartChange` | kompact/src/bench/atomic_broadcast/vr_le.rs:153-158 | One StartViewChange to every other process |
| `ViewChange.VRLeaderElectionComp.OnTimeout` | kompact/src/bench/atomic_broadcast/vr_le.rs:123-142 | Only for the elected ballot; a silent leader makes the process join the next view |
| `ViewChange.AnsweredLeaderIsKept` | kompact/src/bench/atomic_broadcast/vr_le.rs:123-128 | A timeout after an answer with the elected ballot keeps view and status and sends nothing |
| `ViewChange.StaysWithAnsweringLeader` | kompact/src/bench/atomic_broadcast/vr_le.rs:123-363 | In every run without a StartViewChange of a higher view, if each timeout finds an answer since the previous one, the process stays in its view and sends nothing; the flag tells whether the leader was heard since the last timeout |
| `ViewChange.SilentLeaderIsLeft` | kompact/src/bench/atomic_broadcast/vr_le.rs:123-142 | After such a run, a timeout with no answer since the last one moves the process to the next view and its round-robin candidate, and sends to every other process and nobody else |
| `ViewChange.VRLeaderElectionComp.OnReply` | kompact/src/bench/atomic_broadcast/vr_le.rs:274-289 | Only a reply with the elected ballot marks the leader alive, which keeps the process in its view at the next timeout (`ViewChange.AnsweredLeaderIsKept`) |
| `ViewChange.VRLeaderElectionComp.OnRequest` | kompact/src/bench/atomic_broadcast/vr_le.rs:256-273 | The answer carries the ballot of the last announcement |
| `ViewChangeSafety.AnswersLastAnnouncement` | kompact/src/bench/atomic_broadcast/vr_le.rs:256-273 | In every state of every run that ballot is the last one the process announced, or the default one if there is none |
| `ViewChange.VRLeaderElectionComp.OnStartViewChange` | kompact/src/bench/atomic_broadcast/vr_le.rs:295-338 | Joins higher views, counts the current one, becomes candidate or follows at the majority |
| `ViewChange.StartsAreCounted` | kompact/src/bench/atomic_broadcast/vr_le.rs:313-334 | In a view of several processes a joiner only counts while it and those it heard of are at most half; above half the view's own candidate becomes candidate, any other process follows it and tells it |
| `ViewChange.VRLeaderElectionComp.OnDoViewChange` | kompact/src/bench/atomic_broadcast/vr_le.rs:339-363 | Counts for the candidate's own ballot only; announces at the majority |
| `ViewChange.FollowersAreCounted` | kompact/src/bench/atomic_broadcast/vr_le.rs:346-358 | A candidate announces itself exactly when it and its followers are more than half, once |
| `FloydWarshall.ComputeFloydWarshall` | shared_rust/src/helpers/graphs.rs:190-201 | For every square matrix of non-negative weights (zero diagonal not needed) the in-place loops end with each entry equal to the least weight over all paths with at least one edge |
| `FloydWarshall.AdmitIsShortest` | shared_rust/src/helpers/graphs.rs:190-201 | After admitting the nodes below k each entry is the least weight over paths whose inner nodes are below k |
| `FloydWarshall.AdmitAllIsDistance` | shared_rust/src/helpers/graphs.rs:190-201 | With all nodes admitted each entry is attained by a path and below every path |
| `FloydWarshall.PivotUnchanged` | shared_rust/src/helpers/graphs.rs:192-198 | Pass k leaves row and column k as they are, so updating in place reads old values |
| `FloydWarshall.RelaxInPlace` | shared_rust/src/helpers/graphs.rs:192-199 | One in-place pass equals the simultaneous update of a copy |
| `BlockedFloydWarshall.BlockedFloydWarshall` | shared_rust/src/helpers/graphs.rs:359-380 | Running all blocks against the snapshot of each pass and reassembling gives exactly the plain result, and the distances |
| `BlockedFloydWarshall.ComputeInner` | shared_rust/src/helpers/graphs.rs:308-328 | The in-place pass over one block relaxes exactly its part of the whole matrix |
| `BlockedFloydWarshall.PivotRead` | shared_rust/src/helpers/graphs.rs:278-296 | element_at, half-way through a block, still returns the old entry of row or column k, from the block itself or from the snapshot |
| `BlockedFloydWarshall.GetBlock` | shared_rust/src/helpers/graphs.rs:121-142 | The block with the given id is the matching part of the matrix, also when the size does not divide it |
| `BlockedFloydWarshall.BlockPosition` | shared_rust/src/helpers/graphs.rs:268-272 | A block's id gives its place in the grid |
| `BlockedFloydWarshall.BreakIntoBlocks` | shared_rust/src/helpers/graphs.rs:144-158 | The grid tiles the matrix |
| `BlockedFloydWarshall.AssembleFromBlocks` | shared_rust/src/helpers/graphs.rs:160-179 | Reassembly gives back the matrix that the grid tiles |
| `BlockedFloydWarshall.BlockingRoundTrip` | shared_rust/src/helpers/graphs.rs:343-356 | Breaking into blocks and reassembling is the identity |
| `DiskStorage.DiskStorageCore.AppendLog` | kompact/src/bench/atomic_broadcast/storage.rs:465-486 | Refines truncate-then-append for every batch: an empty one does nothing, one that starts in the compacted part or after the next index panics and changes nothing, any other succeeds iff it starts in the log or at its end and the result fits file and offset table, and then the storage stands for the truncated and extended sequence; consecutive indices are kept iff those of the batch are consecutive |
| `DiskStorage.DiskStorageCore.AppendBatches` | kompact/src/bench/atomic_broadcast/storage.rs:465-486 | After any sequence of successful appends to an empty log the storage stands for the replay of the batches |
| `DiskStorage.DiskStorageCore.AppendEntries` | kompact/src/bench/atomic_broadcast/storage.rs:331-379 | From any log position: success iff the position is in the log or at its end and the result fits; then the bytes before the cursor are exactly the image of the new sequence, the offset table tiles it and the cursor is at its end |
| `DiskStorage.DiskStorageCore.Seek` | kompact/src/bench/atomic_broadcast/storage.rs:331-338 | Overwriting starts at the end of the kept entries; without overwriting the cursor already stands there |
| `DiskStorage.DiskStorageCore.AppendEntry` | kompact/src/bench/atomic_broadcast/storage.rs:342-366 | One length-prefixed record and its offset; succeeds iff both fit |
| `DiskStorage.DiskStorageCore.UpdateMetadata` | kompact/src/bench/atomic_broadcast/storage.rs:367-376 | First index written when replaced from the start, last index always, with their flags |
| `DiskStorage.DiskStorageCore.SetMetadata` | kompact/src/bench/atomic_broadcast/storage.rs:407-427 | Flag and big-endian value, nothing else changed |
| `DiskStorage.DiskStorageCore.LogOffset` | kompact/src/bench/atomic_broadcast/storage.rs:382-389 | The table entry of a stored position is the length of the image of the entries before it |
| `DiskStorage.DiskStorageCore.GetEntry` | kompact/src/bench/atomic_broadcast/storage.rs:391-405 | A stored entry comes back unchanged iff it ends inside the mapped part of the log, else a panic |
| `DiskStorage.DiskStorageCore.Entries` | kompact/src/bench/atomic_broadcast/storage.rs:528-556 | Compacted, panic, empty range or exactly the requested slice of the abstract sequence; with consecutive indices these are all cases |
| `DiskStorage.DiskStorageCore.Term` | kompact/src/bench/atomic_broadcast/storage.rs:558-578 | Snapshot term, Compacted, Unavailable, or the term of the abstract entry |
| `DiskStorage.DiskStorageCore.FirstIndex` | kompact/src/bench/atomic_broadcast/storage.rs:580-585 | The index after the snapshot, from metadata or default |
| `DiskStorage.DiskStorageCore.LastIndex` | kompact/src/bench/atomic_broadcast/storage.rs:587-592 | The last entry's index, or the snapshot's; with consecutive indices, snapshot index plus the number of entries |
| `DiskStorage.RecordAt` | kompact/src/bench/atomic_broadcast/storage.rs:342-366 | Entry i occupies exactly the bytes between the images of the first i and the first i + 1 entries: the offsets tile the log |
| `DiskStorage.LatestBatchDecides` | kompact/src/bench/atomic_broadcast/storage.rs:465-486 | After any accepted batches an index is stored iff the last batch that starts at or below it reaches it, and it is stored as that batch has it |
| `Bytes.U64RoundTrip` | kompact/src/bench/atomic_broadcast/storage.rs:382-405 | Big-endian encoding of a 64-bit number is undone by decoding |
| `Bytes.BigEndianAt` | kompact/src/bench/atomic_broadcast/storage.rs:382-405 | Byte i of a k-byte encoding is the digit of weight 256^(k-1-i) |
| `SegmentPullRuns.PulledIsPrefix` | kompact/src/bench/atomic_broadcast/paxos.rs:890-925 | Whatever order, loss, duplication and retries occurred, a pulled sequence is the first n * (len / n) entries of the final one; it is all of it iff the announced length is right and n divides it |
| `SegmentPullRuns.UnfinishedMissesSegment` | kompact/src/bench/atomic_broadcast/paxos.rs:998-1050 | A pull that is not finished still misses a planned segment, so it completes as soon as all have arrived |
| `SegmentPullRuns.OnlyPanicIsNoPeer` | kompact/src/bench/atomic_broadcast/paxos.rs:908-1050 | A transfer in flight makes the receiver panic iff it is new, requires pulling the previous sequence, and no ready peer is known; in particular no completed sequence misses the next configuration id |
| `SegmentPullRuns.TailIsLost` | kompact/src/bench/atomic_broadcast/paxos.rs:792-808 | Three entries pulled from two nodes yield two entries |
| `SegmentPullRuns.RunKeepsInv` | kompact/src/bench/atomic_broadcast/paxos.rs:810-1050 | Every step, including resending all pending segments, keeps that each planned segment is pending, or received once with the entries of the final sequence |
| `SegmentPull.PlanTiles` | kompact/src/bench/atomic_broadcast/paxos.rs:792-808 | Planned segments are contiguous, of equal length, in bounds, and end at n * (len / n) |
| `SegmentPull.Reassembly` | kompact/src/bench/atomic_broadcast/paxos.rs:908-925 | Sorting and concatenating the planned segments, received in any order, gives that prefix, also for segments of size zero |
| `SegmentPull.SortSorts` | kompact/src/bench/atomic_broadcast/paxos.rs:913 | The sort by start index gives an ascending permutation |
| `SegmentPull.SequencePuller.PullSequence` | kompact/src/bench/atomic_broadcast/paxos.rs:810-842 | One request per source node, for its own segment (`SegmentPull.PullAsksEachNode`); the whole plan is pending |
| `SegmentPull.PullAsksEachNode` | kompact/src/bench/atomic_broadcast/paxos.rs:792-842 | The i-th request goes to the i-th node and asks for the i-th segment; the whole plan is pending |
| `SegmentPull.SequencePuller.OnRetry` | kompact/src/bench/atomic_broadcast/paxos.rs:844-880 | Resends the pending segments; panics iff some are pending and no peer is known |
| `SegmentPull.RetryMeaning` | kompact/src/bench/atomic_broadcast/paxos.rs:844-880 | Each pending segment is asked for once, in order, of a ready peer; as many consecutive requests as there are peers go to different ones, the first to the last peer |
| `SegmentPull.SequencePuller.OnSegment` | kompact/src/bench/atomic_broadcast/paxos.rs:890-906 | The segment is stored and its index no longer pending |
| `SegmentPull.SequencePuller.OnCompleted` | kompact/src/bench/atomic_broadcast/paxos.rs:908-935 | Sorted, concatenated and stored, bookkeeping removed; a panic without a next configuration, which becomes the active one when all earlier sequences are there |
| `SegmentPull.SequencePuller.OnTransfer` | kompact/src/bench/atomic_broadcast/paxos.rs:988-1050 | Ignores handled segments, starts the pull of the previous sequence, stores a success and completes, asks again after a failure |
| `SegmentPull.FailedIsAskedAgain` | kompact/src/bench/atomic_broadcast/paxos.rs:1024-1049 | A failed segment is asked for again, of the randomly picked ready peer |
| `SegmentPull.StartsWhenAllThere` | kompact/src/bench/atomic_broadcast/paxos.rs:927-935 | The next configuration becomes active iff every earlier sequence is there |
| `ReconfigClient.FinishedOnce` | kompact/src/bench/atomic_broadcast/reconfig_client.rs:140-270 | A run panics iff it is told to start without a leader or process 0 is announced in setup; otherwise pending never exceeds the limit, pending and answered ids partition the issued ones, the latch has dropped once exactly when all proposals and a requested reconfiguration are answered, a requested reconfiguration is pending or answered iff half of the responses are there, and with fewer than two proposals it is never proposed and the client never finishes |
| `ReconfigClient.ReplayKeepsInv` | kompact/src/bench/atomic_broadcast/reconfig_client.rs:140-270 | A run panics iff it is told to start without a leader or process 0 is announced in setup; in particular the number of available slots never underflows; every other run keeps the accounting invariant |
| `ReconfigClient.AccountingKeptIff` | kompact/src/bench/atomic_broadcast/reconfig_client.rs:436-467 | A response keeps the accounting iff it does not carry the reconfiguration's own id while that is pending |
| `ReconfigClient.ReconfigurationClient.SendConcurrentProposals` | kompact/src/bench/atomic_broadcast/reconfig_client.rs:140-169 | Fills the window with the next ids in order, up to the last id |
| `ReconfigClient.WindowStaysFull` | kompact/src/bench/atomic_broadcast/reconfig_client.rs:140-169 | In every run with leaders above 0, a running client has as many proposals pending as the limit allows, or has issued all of them |
| `ReconfigClient.LeaderFollowsRounds` | kompact/src/bench/atomic_broadcast/reconfig_client.rs:426-453 | A running client changes its leader exactly on a higher round: named by a leader message, by the answer to a pending proposal if that leader is a member, or by the answer to its reconfiguration if it names another one |
| `ReconfigClient.LeaderBeforeRun` | kompact/src/bench/atomic_broadcast/reconfig_client.rs:418-458 | Before the run, leader messages and answers to preloaded proposals set leader and round whatever the round is, other answers change nothing, and a message that names process 0 panics |
| `ReconfigClient.ReconfigurationClient.OnRun` | kompact/src/bench/atomic_broadcast/reconfig_client.rs:367-395 | Starts running and fills the window; stops at the assertion if no leader is known |
| `ReconfigClient.ReconfigurationClient.OnLeader` | kompact/src/bench/atomic_broadcast/reconfig_client.rs:418-432 | Takes any leader in setup, where process 0 is refused by an assertion, and one of a higher round while running |
| `ReconfigClient.ReconfigurationClient.HandleNormalResponse` | kompact/src/bench/atomic_broadcast/reconfig_client.rs:171-235 | Counts an answer, drops the latch at the last one unless a reconfiguration is open, proposes the reconfiguration half-way |
| `ReconfigClient.ReconfigurationClient.HandleReconfigResponse` | kompact/src/bench/atomic_broadcast/reconfig_client.rs:237-270 | Only a pending reconfiguration is answered; finishes, or adopts configuration and leader and refills the window |
| `ReconfigClient.ReconfigurationClient.OnProposalResp` | kompact/src/bench/atomic_broadcast/reconfig_client.rs:436-467 | Ignored when finished; a pending id is counted and the window refilled |
| `Membership.GetNewConfiguration` | kompact/src/bench/atomic_broadcast/messages.rs:969-995 | For every choice of random removals and any node lists: a panic iff there is no node to take the leader's place or no follower left to remove, else the kept followers, the new nodes and, if the policy keeps it, the leader |
| `Membership.ReplacementIsConfiguration` | kompact/src/bench/atomic_broadcast/messages.rs:969-995 | From a duplicate-free configuration with its leader: same size; duplicate-free iff the new nodes are distinct, none is a kept follower and a kept leader is not among them; the leader stays or goes as the policy says |
| `Membership.PlanFits` | kompact/src/bench/atomic_broadcast/util.rs:145-158 | For a duplicate-free configuration 1..n with its leader a plan finds enough followers iff n is large enough (3 for the majority plan with a kept leader, 2 for a single one, 1 when the leader goes), and every outcome is duplicate-free, of size n, with the leader iff the policy keeps it |
| `Membership.PlannedNodes` | kompact/src/bench/atomic_broadcast/util.rs:145-158 | The new nodes of a plan are n + 1, n + 2, … in order: one of them, or the least number above half of n |
| `WireFormat.FieldsRoundTrip` | kompact/src/bench/atomic_broadcast/messages.rs:93-96 | Fixed-width big-endian fields, and lengths below 2^32, are read back with the rest of the buffer untouched |
| `WireFormat.ListRoundTrip` | kompact/src/bench/atomic_broadcast/messages.rs:123-128 | A length-prefixed list is read back when its length fits and its elements are read back |
| `WireFormat.FieldsWire` | kompact/src/bench/atomic_broadcast/messages.rs:93-96 | Fields are big-endian, of one, four and eight bytes, in front of what follows |
| `WireFormat.ListWire` | kompact/src/bench/atomic_broadcast/messages.rs:123-128 | A list is its 32-bit length and then its elements in order |
| `PaxosCodec.EntryRoundTrip` | kompact/src/bench/atomic_broadcast/messages.rs:98-164 | Normal entries and stop signs with their node lists and optional leader are read back |
| `PaxosCodec.MessageRoundTrip` | kompact/src/bench/atomic_broadcast/messages.rs:196-327 | Every Paxos message followed by any bytes is read back, leaving exactly those bytes, iff its list and byte lengths fit in 32 bits (lengths are truncated, not checked) |
| `PaxosCodec.ReconfigRoundTrip` | kompact/src/bench/atomic_broadcast/messages.rs:483-610 | The same for reconfiguration init, segment request and segment transfer |
| `PaxosCodec.EntryWire` | kompact/src/bench/atomic_broadcast/messages.rs:93-128 | Tags and field order of ballots, optional leaders, entries and stop signs |
| `PaxosCodec.MessageWire` | kompact/src/bench/atomic_broadcast/messages.rs:196-251 | Sender, receiver, tag and field order of every Paxos message |
| `PaxosCodec.ReconfigWire` | kompact/src/bench/atomic_broadcast/messages.rs:492-536 | Tag and field order of every reconfiguration message |
| `PaxosCodec.GetMessage` | kompact/src/bench/atomic_broadcast/messages.rs:258-327 | Whatever bytes arrive, a message that is read has lengths that fit |
| `MultiPaxosCodec.ValueRoundTrip` | kompact/src/bench/atomic_broadcast/multi_paxos/serializers.rs:27-58 | Command batches and noops are read back |
| `MultiPaxosCodec.LeaderRoundTrip` | kompact/src/bench/atomic_broadcast/multi_paxos/serializers.rs:77-185 | Every message to a leader followed by any bytes is read back, leaving those bytes, iff its lengths fit |
| `MultiPaxosCodec.AcceptorRoundTrip` | kompact/src/bench/atomic_broadcast/multi_paxos/serializers.rs:187-255 | The same for messages to acceptors, where the round precedes the slot |
| `MultiPaxosCodec.ReplicaRoundTrip` | kompact/src/bench/atomic_broadcast/multi_paxos/serializers.rs:257-292 | The same for messages to replicas, which carry no tag |
| `MultiPaxosCodec.BatcherRoundTrip` | kompact/src/bench/atomic_broadcast/multi_paxos/serializers.rs:294-355 | The same for messages to batchers |
| `MultiPaxosCodec.ProxyRoundTrip` | kompact/src/bench/atomic_broadcast/multi_paxos/serializers.rs:357-425 | The same for messages to proxy leaders, where the slot precedes the round |
| `MultiPaxosCodec.PartsWire` | kompact/src/bench/atomic_broadcast/multi_paxos/serializers.rs:27-75 | Tags of batches and noops; slot, round, value of a reported vote |
| `MultiPaxosCodec.LeaderWire` | kompact/src/bench/atomic_broadcast/multi_paxos/serializers.rs:86-123 | Tag and field order of every message to a leader |
| `MultiPaxosCodec.OthersWire` | kompact/src/bench/atomic_broadcast/multi_paxos/serializers.rs:196-383 | Tag and field order of every message to acceptors, replicas, batchers and proxy leaders |

## Left out

- MultiPaxosProgress.AnyMajorityChooses: says that such a run exists, not that schedules are fair; a leader may be replaced at any time.
- Agreement of Multi-Paxos on slots that are not good: the condition is sufficient; each half of it is shown to be needed by a run, but a slot can also agree by luck, so there is no equivalence.
- Kompact actors, ports, actor paths, start, stop and kill: handlers are step triggers and messages are values.
- Timers and clocks: a timer may fire whenever it has been scheduled; resending Phase1a is covered by the network, which may deliver any message again. The ping timing of `participant.rs` is replaced by the election oracle.
- The `omnipaxos` and Raft libraries, which are not part of this repository, and the components that only wrap them.
- `mp_le.rs` (gossip election) and its re-announcements.
- The majority that ballot leader election uses after a reconfiguration; the model uses the constructor's.
- BleConvergence.SettledFromThirdRound: lock-step rounds, in which all heartbeats of a round are answered from the states at its start; the monotonicity results hold for arbitrary schedules.
- Overflow of 32-bit and 64-bit ballots, rounds, views and slots: they are unbounded naturals. Disk storage models 64-bit encodings, and files end at the largest signed 64-bit offset.
- Floating-point weights: weights are exact naturals with infinity.
- BlockedFloydWarshall.PassOverBlock: each block is copied into an array of its own and back; aliasing between blocks is not modelled because the snapshot is a clone.
- Histories with several operations of one sender on one key, incomplete histories and equal timestamps: the checker's code still runs on them in the model, but the answer is characterised only for the others.
- The stable sorts of the standard library are modelled by insertion.
- DiskStorage.DiskStorageCore.Entries: the size limit is omitted, and so is what is read beyond the stored entries when indices are not consecutive. The protobuf encoding is a parameter: any entry codec that round trips is allowed.
- Hard state, configuration state and recovery of the storage from disk.
- The special start without a pull when the first sequence holds only the stop sign, the components that the next configuration starts, and the answers that the Paxos library computes for segments of the running configuration. A node that holds a sequence holds the final one; that a node declines requests of its leader and requests it has served is covered by transfers that never arrive.
- ReconfigClient.ReplayKeepsInv: responses under the reconfiguration's own id are excluded, as AccountingKeptIff shows they must be. Preload countdown, latencies, retries, Stop and the lookup of the leader's path are not modelled; Run arrives once: the model ignores a second one, which the code would obey.
- View change with duplicated packets: counters count packets, so the majority can then be missing, as the run in `ViewChangeDuplication` shows.
- Wire codecs are modelled on values: a serialiser is a function that puts fields in front of what follows, a deserialiser a function from a buffer to a value and the rest; the buffer that is appended to and consumed in place is not modelled. The codecs of elections, clients and Raft are left out.
- The `simulate_partition` feature (delays, disconnected peers, the notice to the local batcher at the end of phase 1), IO metering, result files, histograms, the gRPC master and runner, generated protobuf code and scripts.
