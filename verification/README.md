# A verified model of the Raft, key/value, lock, sharding and MapReduce code

The project models five protocol cores of the repository and proves what holds in every run of each.

* **Raft and the replicated state machine.** `RaftNode` gives what every RPC handler, reply handler and local event of
  a peer does to its state, `Rsm` what the reader loop and `Submit` do above it, and `Cluster` puts any number of such
  servers on a network that loses, delays, reorders and repeats messages, with elections from any state, crashes at any
  moment, between the two saves of a handler included, and restarts from the persister. `Consensus` is a network-free
  description of the protocol with its history; `ConsensusProof` shows that every step of it keeps an invariant.
  `Simulation`, `SimulationNode`, `SimulationLog` and `SimulationRsm` show that every action of the cluster is a
  sequence of such steps; `RaftSafety`, `RaftBackup` and `RsmOnce` read off the properties of every reachable cluster,
  `Proposals` and `Linearizability` those of the service as a whole, and `OwnAnswer` when an answer is the caller's
  own. `RaftExact` says of each handler, without its code, what it answers and what it leaves, and `ClusterExact` what
  that means in every reachable cluster. `Electable` and `Progress` show that the service can always go on: from every
  reachable cluster of two or more peers a leader can be elected and any request answered. `Drive` builds runs a few
  steps at a time, and `IdReuse` uses it for the runs in which an answer is not the caller's own. `RaftPeer` and
  `RsmServer` are the same peers as objects updated in place, with the loops of the source, each method proved against
  the function of `RaftNode` or `Rsm` it refines.
* **Conditional puts.** `Kv` is the versioned store and what its history makes it answer, `Clerk` the retrying clerk of
  one server, `KvraftClerk` that of the replicated service, over runs of `Cluster`, `ClerkProgress` when its calls can
  return, and `Lock` the lock built from conditional puts.
* **Shard migration.** `ShardServer` is one group's shard records, `Controller` the loop of one undisturbed
  controller, `Migration` any number of controllers over any number of groups, `MigrationProof` what every orderly run
  keeps and what clients are answered, `StaleRecovery` exactly when a recovery is safe and what happens otherwise,
  `Reconfiguration` that one controller can always finish what is pending and carry out any further change.
* **Rebalancing.** `Balance` is the assignment `Rebalance` computes, `ShardCfg` the configuration object.
* **MapReduce.** `MapReduce` has the worker's and the sequential program's loops and shows they mean the same.

How the source's own choices appear:

* The commit rule takes the middle of the ascending `matchIndex`, which only ceil(n/2) peers are known to hold; votes
  need floor(n/2)+1. Nothing is assumed about n: the two kinds of set always meet (`Quorum`, `Sorting`).
* A peer's full log is not part of its state; `Simulation.Compacts` ties the compacted log and its boundary to one.
* An index out of range would stop the process. `Cluster` records that as `panicked`; it is proved never to happen.
* `nextId` is not persisted, so `Op` and `Replica` carry the number of the process lifetime. Nothing in the code reads
  it; it is there to say when an answer is the caller's own.
* A crash keeps what the last save wrote. The disk changes only at saves, so a crash inside a critical section is one
  before it, one after it, or one between the two saves of a handler that first adopts a later term.
* The trace of a `Cluster` records who led, what was proposed, delivered and answered, in the order it happened.
* The vote counter and its goroutines are the fields `votes`, `asked`, `heard` and `granted` of a peer.
* Random choices, timers and map iteration order are arbitrary. The hash functions, `mapf` and `reducef` are parameters.
* Configuration numbers, versions and indexes are unbounded integers.

Properties that fail, with the condition under which they hold:

* An answered `Submit` may have been answered with another operation, of an earlier lifetime of its peer. It is its own
  if, when it proposed, no earlier `Submit` of the peer had used its id at its index (`OwnAnswer.AnswerIsOwn`), as in
  the first lifetime, at index 1, and with any id larger than those of earlier lifetimes. From its own lifetime, id and
  index a `Submit` can be sure of its answer if and only if it is in the first lifetime or at index 1
  (`IdReuse.MistakenExactly`): for every other lifetime, id and index there is a run in which it is mistaken.
* So `OK` from a kvraft1 clerk does not mean that the put took effect: it did if and only if the answer is the
  attempt's own, otherwise it is nowhere (`KvraftClerk.VerdictsTruthful`). `KvraftClerk.OkWithoutEffect` gives, for
  every put, runs in which it is nowhere.
* A cluster of one peer never answers anything: votes are counted when a reply comes in, so a peer alone never leads. A
  reachable cluster can still answer a request, and a call still return, if and only if there is a second peer
  (`Progress.AnswersExactly`, `ClerkProgress.ReturnsExactly`).
* A clerk's `ErrNoKey` after a resend settles nothing: an attempt still in flight can take effect later if and only if
  the key's version has not passed the one it names (`Clerk.NoKeyCanStillTakeEffect`). Without a resend it is final.
* A rejection makes a leader skip no index that could match, however late it arrives, if its hint lies below nextIndex.
  If not, the leader goes back by one, and may skip a matching index (`RaftBackup.RepeatSkipsMatch`).
* Two lock clients that drew the same id can hold the lock together (`Lock.SharedIdBreaksExclusion`); with distinct ids
  no two can.
* `InitController` reads two keys one after the other. What follows a recovery is always safe if and only if, for every
  shard, the owner it read is the one before the pending configuration or that configuration's move of the shard is
  finished (`StaleRecovery.RecoverySafeExactly`), as when the two numbers are adjacent
  (`MigrationProof.AdjacentIsOrderly`). `StaleRecovery.StaleRecoveryLoses` shows how accepted writes are lost otherwise,
  and `StaleRecovery.StaleReadIsReachable` that such a recovery happens.

## Model

| member | source | states |
|---|---|---|
| `Linearizability.Linearizable` | src/kvraft1/rsm/rsm.go:243-297 | for every run there is one order of operations, none of them in it twice, in which every answer ever given is right for the operation at its index: a Get finds the value of the last put on the key that succeeded before it and the number of those puts as version, or ErrNoKey, "" and 0 if there is none; a Put succeeds iff it names that number, with ErrNoKey or ErrVersion otherwise; answers that are their callers' own have an index each, and what was proposed after an answer comes after it |
| `KvraftClerk.VerdictsTruthful` | src/kvraft1/client.go:83-101 | in every run of the replicated service with any number of retrying clerks, in every order that explains the run: at most one attempt of a call takes effect; ErrVersion, or ErrNoKey without a resend, means none does, ever; the answer a call returned on is its latest attempt's own or that attempt is nowhere, and it is its own if no earlier Submit of the peer had used its id at its index when it proposed; OK means the latest attempt, and no other, took effect if and only if the answer is its own; an own answer is the right one for the requests before it in the order, a Get returns it unchanged, and a Put turns it into ErrMaybe iff it is ErrVersion after a resend |
| `KvraftClerk.CallsInOrder` | src/kvraft1/client.go:50-101 | one order in which every answer is right for the operations before it and, when a call returned before another began, every attempt of the second comes after the index the first was answered at |
| `KvraftClerk.OkWithoutEffect` | src/kvraft1/client.go:83-101 | for every put, every id, every index from 2 on and every lifetime after the first: a run in which Clerk.Put returns OK on its first attempt and the put is nowhere in any order that explains the run |
| `ClerkProgress.CanReturn` | src/kvraft1/client.go:50-101 | from every state of every run over two or more peers, every call that has not returned can return with the answer of its own operation |
| `ClerkProgress.ReturnsExactly` | src/kvraft1/client.go:50-101 | such a call can still return if and only if the service has a second peer |
| `Progress.CanAnswer` | src/kvraft1/rsm/rsm.go:243-297 | from every reachable cluster of two or more peers, whatever was lost, crashed, compacted or left in flight, every request can still be proposed and answered with its own operation's answer |
| `Progress.AnswersExactly` | src/raft1/raft.go:294-342 | a reachable cluster can still answer a request if and only if it has a second peer |
| `Progress.CanLead` | src/raft1/raft.go:284-364 | from every reachable cluster of two or more peers one can come to lead in a term later than all others |
| `Progress.Syncs` | src/raft1/raft.go:546-672 | however far apart their logs are, rejections, backing up and snapshots bring a peer to a leader's log: the leader comes to record its last index for the peer |
| `Progress.Commits` | src/raft1/raft.go:675-688 | a leader with an entry of its own term can bring every peer to its log and commit up to that entry |
| `Electable.CanElect` | src/raft1/raft.go:284-364 | from every reachable cluster any peer whose last entry is not behind that of enough others to make a majority can come to lead, with all logs and services as they were |
| `Proposals.ProposedOnce` | src/kvraft1/rsm/rsm.go:256-269 | in every run two proposals by one Submit, known by peer, lifetime and id, are one event, so an operation is at one index of any log |
| `OwnAnswer.AnswerIsOwn` | src/kvraft1/rsm/rsm.go:189-206 | if no earlier Submit of the peer used the id at the index, every answer the Submit ever gets is its own operation's, at the index where it proposed |
| `OwnAnswer.OwnIfClear` | src/kvraft1/rsm/rsm.go:189-206 | the same of an answer in a run, from the part of the run before the proposal |
| `OwnAnswer.LargerIdClear` | src/kvraft1/rsm/rsm.go:256-257 | with an id larger than every id earlier lifetimes proposed with, no earlier Submit used the id at the index |
| `OwnAnswer.FirstLifeClear` | src/kvraft1/rsm/rsm.go:256-257 | in a peer's first lifetime no earlier Submit used the id at the index |
| `OwnAnswer.FirstIndexClear` | src/raft1/raft.go:436-445 | a peer that proposed at index 1 never proposes there again, since its log is never empty again |
| `RaftSafety.StateMachineSafety` | src/raft1/raft.go:691-723 | in every reachable cluster one log, every entry of which some leader proposed at that index and term, explains the whole run: every command and snapshot ever delivered by any peer, every committed prefix, every replica's state (the fold of the commands up to its applied index) and every answer ever given, which is that of an operation of the caller's peer with the caller's id, of the same lifetime iff it is the caller's own |
| `RaftSafety.ElectionSafety` | src/raft1/raft.go:284-364 | over a whole run, crashes included, a term has at most one leader |
| `RaftSafety.LeadersUnique` | src/raft1/raft.go:198-250 | at most one peer is in the leader role of a term; disk equals memory; a candidate's counter is the number of peers that granted it plus one |
| `RaftSafety.RestartRestores` | src/raft1/raft.go:792-821 | restarting over the persister brings back term, vote, log, boundary and snapshot, and applies nothing at or below the boundary again |
| `RaftSafety.LogMatchingTheorem` | src/raft1/raft.go:436-445 | two peers' compacted logs with equal terms at an index have equal terms at every earlier index both hold and equal entries above both boundaries |
| `RaftSafety.LeaderCompletenessTheorem` | src/raft1/raft.go:675-688 | what a peer regards as committed at some moment is in the log of every leader of that or a later term at every later moment |
| `RaftSafety.MatchIndexSound` | src/raft1/raft.go:546-643 | what a leader recorded in matchIndex for a peer, that peer's log agrees with for as long as it stays in the term, however replies are reordered |
| `RaftSafety.CommitClampExact` | src/raft1/raft.go:450-457 | every AppendEntries ever sent reaches its LeaderCommit, so an accepted one leaves commitIndex at the maximum of the old value and LeaderCommit |
| `RaftSafety.AppliedInOrder` | src/raft1/raft.go:81-87 | no index is ever out of range; lastIncludedIndex, lastApplied, commitIndex and the last index stay in order, with or without a pending snapshot |
| `RaftSafety.DeliveriesGapFree` | src/raft1/raft.go:691-723 | the next delivery is the operation at the next index, never a boundary entry, or a snapshot further on that stands for its index |
| `RaftSafety.TermsOnlyGrow` | src/raft1/raft.go:126-162 | a peer's term never falls, through crashes and restarts |
| `RaftSafety.WaitersServed` | src/kvraft1/rsm/rsm.go:243-297 | an unresolved Submit is registered at its index, or its term has passed and its exit test is true |
| `RaftSafety.LostForGood` | src/kvraft1/rsm/rsm.go:272-295 | once a waiter's term has passed, its exit test is true at every later moment |
| `RaftSafety.StepSim` | src/raft1/raft.go:224-752 | every action of the cluster is matched by Consensus steps that keep the invariant and only add history |
| `ClusterExact.AcceptedEntries` | src/raft1/raft.go:432-457 | in every reachable cluster an accepted AppendEntries leaves everything up to the previous entry as it was, its entries right behind it, and commitIndex at max(old, min(LeaderCommit, last index)) |
| `ClusterExact.CommitsExactly` | src/raft1/raft.go:675-688 | a leader that hears of a success then has committed the greatest index of its own term that half of the cluster is known to hold, unless it had committed more |
| `ClusterExact.LeaderSends` | src/raft1/raft.go:546-607 | a leader sends its snapshot iff nextIndex is not above its boundary, and otherwise every entry from nextIndex on, with the term before them and its commit index |
| `ClusterExact.CompactsExactly` | src/raft1/raft.go:175-192 | in every reachable cluster, compacting at what the service has applied, if above the boundary, makes that the boundary: the last index and every entry above stay, the entry there keeps its term and loses its command, and memory and disk hold the state after all the agreed commands up to it; otherwise nothing changes |
| `ClusterExact.ReadsExactly` | src/kvraft1/rsm/rsm.go:168-206 | the next command read is the next operation of the agreed order; the state becomes what the requests up to it make; the Submit registered there is told the right answer iff the command is from this peer with its id, else ErrWrongLeader, and no other hears anything |
| `ClusterExact.WaitersTold` | src/kvraft1/rsm/rsm.go:150-222 | no Submit is left waiting at or below what its service has applied: it has been told, has returned, or its exit test is true |
| `ClusterExact.ReadCommandExactly` | src/kvraft1/rsm/rsm.go:168-206 | a command not yet applied is applied once, and exactly the Submit registered at its index is told, with the answer iff the command is its own peer's with its id |
| `ClusterExact.ReadSnapshotExactly` | src/kvraft1/rsm/rsm.go:153-167 | a snapshot further on replaces the state; exactly the Submits registered at or below the index reached are told ErrWrongLeader |
| `ClusterExact.SubmitExactly` | src/kvraft1/rsm/rsm.go:256-269 | the next id is handed out; on a leader the operation is behind its log and the Submit waits at that index and term; elsewhere nothing else changes |
| `ClusterExact.GiveUpExactly` | src/kvraft1/rsm/rsm.go:276-295 | a Submit that gives up returns ErrWrongLeader and is no longer registered; a later one at its index stays registered; nobody else changes |
| `RaftExact.VoteExactly` | src/raft1/raft.go:224-250 | a vote is granted iff the request's term is not old, the peer has no other vote in it, and the candidate's last (term, index) is lexicographically at least the peer's; then the vote is the candidate's, in memory and on disk |
| `RaftExact.ElectionExactly` | src/raft1/raft.go:284-306 | an election begins in the next term with the peer's own vote saved and counted |
| `RaftExact.VoteReplyExactly` | src/raft1/raft.go:326-364 | a reply is counted iff it grants a vote of the election still running; the peer leads from the moment more than half have voted for it, with nextIndex behind its log and nothing known of the others; a later term ends it |
| `RaftExact.AppendExactly` | src/raft1/raft.go:395-460 | AppendEntries succeeds iff the term is not old and the peer has the previous entry with its term, heartbeats included; the term rises, the role falls, and a refusal changes nothing else |
| `RaftExact.AcceptExactly` | src/raft1/raft.go:432-457 | for every peer and request: nothing at or before the previous entry changes, the entries' terms follow it, what was behind them stays iff nothing was in conflict, and the commit index follows the leader's as far as the log reaches |
| `RaftExact.RefuseExactly` | src/raft1/raft.go:414-434 | a refusal names the end of the log, or its boundary, or the conflicting term and where its run of entries begins |
| `RaftExact.CompactExactly` | src/raft1/raft.go:175-192 | for every peer: an index applied and above the boundary becomes the boundary, keeping its term and every entry above, with the snapshot in memory and on disk; any other index changes nothing |
| `RaftExact.InstallExactly` | src/raft1/raft.go:462-506 | a snapshot is installed iff its term is not old and it reaches past the boundary; the log above stays iff the peer has the entry it stands for; it goes to the service iff that has not applied so far |
| `RaftExact.SendExactly` | src/raft1/raft.go:546-607 | what a leader sends a peer, from nextIndex |
| `RaftExact.SnapReplyExactly` | src/raft1/raft.go:565-586 | after a reply in the leader's own term matchIndex is at least the snapshot's index and nextIndex above it, neither lower than before, and nothing else changes; a later term ends its leadership |
| `RaftExact.AppendReplyExactly` | src/raft1/raft.go:611-643 | after a success in its own term matchIndex reaches the last entry sent and nextIndex lies above it, neither lower than before; a rejection older than nextIndex changes nothing, any other only the peer's nextIndex |
| `RaftExact.StartExactly` | src/raft1/raft.go:737-752 | a leader appends the command in its term, saves it and records it for itself; any other peer is left alone |
| `RsmOnce.StepKeeps` | src/kvraft1/rsm/rsm.go:150-222 | within a lifetime a waiter's operation, index, term, and once set its result and return value never change |
| `RsmOnce.AnsweredOnce` | src/kvraft1/rsm/rsm.go:187-206 | in a whole run no Submit of any lifetime of any peer is answered OK twice |
| `RsmOnce.ReturnsWhatWasSent` | src/kvraft1/rsm/rsm.go:271-274 | an answer that Submit returned is the one the reader sent it |
| `IdReuse.ReusedIdAnswered` | src/kvraft1/rsm/rsm.go:189-206 | for every id, every index from 2 on, every lifetime after the first and any two requests: a run of five peers in which the second is answered with the reply to the first, made by an earlier lifetime with that id at that index, and is in no order that explains the run |
| `IdReuse.MistakenExactly` | src/kvraft1/rsm/rsm.go:256-257 | some run answers a Submit of this lifetime, id and index with another operation if and only if the lifetime is not the first and the index not 1 |
| `ConsensusProof.UpToDateCarries` | src/raft1/raft.go:236-242 | a log that passes a voter's last-term-and-index check holds every entry of the voter's that could still be committed |
| `ConsensusProof.ElectUnique` | src/raft1/raft.go:335-342 | two vote quorums of one term are for one candidate |
| `ConsensusProof.CampaignKeeps` | src/raft1/raft.go:284-292 | starting an election keeps the invariant |
| `ConsensusProof.GrantKeeps` | src/raft1/raft.go:224-250 | granting a vote keeps the invariant |
| `ConsensusProof.ElectKeeps` | src/raft1/raft.go:349-364 | becoming leader keeps the invariant: the new leader holds everything that may have been committed |
| `ConsensusProof.ProposeKeeps` | src/raft1/raft.go:737-752 | a leader's append keeps the invariant |
| `ConsensusProof.FollowKeeps` | src/raft1/raft.go:436-457 | taking entries or a snapshot from a leader keeps the invariant, the follower's committed prefix included |
| `ConsensusProof.CommitKeeps` | src/raft1/raft.go:675-688 | committing an entry of the current term held by half the cluster keeps the invariant |
| `ConsensusProof.ChosenAgree` | src/raft1/raft.go:675-688 | any two entries ever committed by the rule lie on one log |
| `ConsensusProof.LeaderCompleteness` | src/raft1/raft.go:675-688 | an entry committed in its own term is in the log of every leader of that or a later term, for every cluster size |
| `Sorting.MiddleHeldByHalf` | src/raft1/raft.go:679-683 | at least ceil(n/2) of the recorded indexes reach the middle of the sorted ones |
| `Sorting.MiddleIsGreatest` | src/raft1/raft.go:679-683 | no index above the middle of the sorted ones is recorded for half of the cluster |
| `Quorum.QuorumsMeet` | src/raft1/raft.go:335-342 | a majority of n peers and any set of at least half of them share a peer |
| `SimulationLog.MergeIsAdopted` | src/raft1/raft.go:436-445 | the truncate-and-append loop keeps a log that already has the entries and otherwise ends it with them |
| `SimulationLog.SendOk` | src/raft1/raft.go:546-607 | whatever a leader sends is true of its log and reaches past its commit index |
| `RaftBackup.BackupSkipsNoMatch` | src/raft1/raft.go:611-672 | a leader handles a rejection at any later moment of its term: if the hint lies below nextIndex, nextIndex becomes it, but not less than max(1, lastIncludedIndex), and no index from there to the one tried could have matched what the peer held when it refused; otherwise nextIndex falls by one |
| `RaftBackup.RepeatSkipsMatch` | src/raft1/raft.go:645-672 | a run in which the same rejection handled twice makes the leader skip an index that matches |
| `SimulationLog.BackupLowers` | src/raft1/raft.go:645-672 | a processed rejection lowers nextIndex or lands on max(1, lastIncludedIndex) |
| `RaftNode.FirstOfTerm` | src/raft1/raft.go:425-431 | the conflict index is the start of the run of equal terms that ends at PrevLogIndex |
| `RaftNode.LastOfTerm` | src/raft1/raft.go:651-654 | the scan finds the last entry of the conflicting term at or below its start, or the boundary |
| `RaftPeer.Persister.Save` | src/tester1/persister.go:53-58 | both fields are replaced together |
| `RaftPeer.Raft.constructor` | src/raft1/raft.go:792-821 | a peer starts from what its persister holds |
| `RaftPeer.Raft.Save` | src/raft1/raft.go:105-123 | the persister gets the whole durable state |
| `RaftPeer.Raft.StepDown` | src/raft1/raft.go:198-203 | refines ToFollower |
| `RaftPeer.Raft.Campaign` | src/raft1/raft.go:284-306 | refines StartElection |
| `RaftPeer.Raft.HandleRequestVote` | src/raft1/raft.go:224-250 | refines RequestVote: state and reply, which RaftExact.VoteExactly gives |
| `RaftPeer.Raft.HandleVoteReply` | src/raft1/raft.go:326-343 | refines OnVoteReply |
| `RaftPeer.Raft.Lead` | src/raft1/raft.go:349-364 | refines BecomeLeader |
| `RaftPeer.Raft.HandleAppendEntries` | src/raft1/raft.go:395-460 | refines AppendEntries: state and reply, conflict hints included, which RaftExact.AppendExactly, AcceptExactly and RefuseExactly give |
| `RaftPeer.Raft.BackScan` | src/raft1/raft.go:427-430 | the back scan finds the first entry of the term |
| `RaftPeer.Raft.MergeEntries` | src/raft1/raft.go:436-445 | the loop leaves the merge of the old log and the entries |
| `RaftPeer.Raft.FollowCommit` | src/raft1/raft.go:450-457 | the commit index rises to the leader's, clamped to the last index |
| `RaftPeer.Raft.HandleInstallSnapshot` | src/raft1/raft.go:462-506 | refines InstallSnapshot: state and reply, which RaftExact.InstallExactly gives |
| `RaftPeer.Raft.Replace` | src/raft1/raft.go:481-497 | the log keeps its suffix if it agrees with the snapshot and is dropped otherwise |
| `RaftPeer.Raft.TakeSnapshot` | src/raft1/raft.go:175-192 | refines Snapshot, which RaftExact.CompactExactly gives |
| `RaftPeer.Raft.NextRequest` | src/raft1/raft.go:546-607 | the request sent is the one Replicate gives |
| `RaftPeer.Raft.HandleSnapReply` | src/raft1/raft.go:565-586 | refines OnSnapReply |
| `RaftPeer.Raft.HandleAppendReply` | src/raft1/raft.go:611-643 | refines OnAppendReply |
| `RaftPeer.Raft.Backup` | src/raft1/raft.go:645-672 | only the peer's nextIndex changes, to what BackupNextIndex gives |
| `RaftPeer.Raft.AdvanceCommit` | src/raft1/raft.go:675-688 | refines AdvanceCommitIndex |
| `RaftPeer.Raft.Propose` | src/raft1/raft.go:737-752 | refines Start, with the index, term and verdict it returns |
| `RaftPeer.Raft.NextDelivery` | src/raft1/raft.go:691-723 | refines Deliver: state and message |
| `RsmServer.RSM.constructor` | src/kvraft1/rsm/rsm.go:84-99 | the persisted snapshot is restored first |
| `RsmServer.RSM.RestoreSnapshot` | src/kvraft1/rsm/rsm.go:111-125 | refines Restore |
| `RsmServer.RSM.ReleasePassed` | src/kvraft1/rsm/rsm.go:159-167 | the loop drops and wakes exactly the waiters at or below the applied index |
| `RsmServer.RSM.ReadOne` | src/kvraft1/rsm/rsm.go:150-208 | refines Read |
| `RsmServer.RSM.Register` | src/kvraft1/rsm/rsm.go:243-269 | refines Submit, over the peer's Start |
| `RsmServer.RSM.CheckLost` | src/kvraft1/rsm/rsm.go:276-295 | refines GiveUp when leadership of the waiter's term is lost, and changes nothing otherwise |
| `Kv.PutEffect` | src/kvsrv1/server.go:64-90 | a put succeeds iff it names the key's version, then moves it up by one, and touches nothing else |
| `Kv.AnswersRight` | src/kvraft1/server.go:48-78 | after every sequence of requests, a Get is answered with the value of the last successful put on the key and their number, or ErrNoKey; a Put succeeds iff it names that number |
| `Kv.RanHolds` | src/kvraft1/server.go:48-78 | after every sequence of requests the store has a key iff some put on it succeeded, with the last value and the number of successful puts as version |
| `Kv.Server.Get` | src/kvsrv1/server.go:42-58 | over the requests carried out so far: OK with the value of the last put on the key that succeeded and their number as version; ErrNoKey, "" and 0 iff there is none; the store stays as it was |
| `Kv.Server.Put` | src/kvsrv1/server.go:64-90 | refines DoPut: store and error; OK iff it names the number of successful puts on the key so far, ErrNoKey iff there is none and it names another, else ErrVersion |
| `Kv.Server.DoOp` | src/kvraft1/server.go:33-78 | refines Apply: store and reply, the right one after the requests carried out so far |
| `Clerk.Put` | src/kvsrv1/client.go:62-78 | the verdict is that of the first outcome, ErrVersion turned into ErrMaybe iff it was a resend |
| `Clerk.VerdictsTruthful` | src/kvsrv1/client.go:62-78 | with one server, over every interleaving of calls, retries and delays at most one attempt of a call takes effect; OK is returned iff the last one did, and then no other; ErrVersion means none did or can; ErrMaybe is returned iff the last was answered ErrVersion after a resend |
| `Clerk.ServerAnswers` | src/kvsrv1/server.go:42-90 | in every run of the single server every Get and Put carried out is answered rightly after those before it |
| `Clerk.NoKeyCanStillTakeEffect` | src/kvsrv1/client.go:62-78 | in every reachable state, for a call that returned ErrNoKey and an attempt of it in flight: some continuation makes the attempt take effect if and only if the key's version is at most the one it names |
| `Clerk.NoKeyReached` | src/kvsrv1/client.go:62-78 | every put with a version above 0 can return ErrNoKey with its first attempt still in flight and able to take effect |
| `Lock.MutualExclusion` | src/kvsrv1/lock/lock.go:43-130 | in every run at most one client is between a returned Acquire and its Release, the key names it at the version it remembers, and never names a client that has released |
| `Lock.SharedIdBreaksExclusion` | src/kvsrv1/lock/lock.go:34-39 | two clients with one id both come to hold the lock |
| `Lock.Handle.Acquire` | src/kvsrv1/lock/lock.go:43-91 | for every sequence of answers to its clerk calls the loop ends holding the lock, with the version it then remembers, exactly where a client of the state machine does |
| `Lock.Handle.Release` | src/kvsrv1/lock/lock.go:94-130 | for every sequence of answers to its clerk calls the loop returns exactly where a client of the state machine does |
| `Lock.AcquireAlone` | src/kvsrv1/lock/lock.go:46-75 | with the server to itself one pass takes the lock iff the key is missing, free or its own, and the key then names it at the version it remembers |
| `Lock.ReleaseAlone` | src/kvsrv1/lock/lock.go:94-130 | with the server to itself Release returns within two puts, whatever version it remembers, and the key no longer names the client |
| `Lock.AcquireUnsure` | src/kvsrv1/lock/lock.go:60-91 | after ErrMaybe a look at the key decides: the client has the lock iff the key names it, at the key's version; any other error sends it back to the start |
| `Lock.ReleaseUnsure` | src/kvsrv1/lock/lock.go:94-130 | after ErrMaybe or ErrVersion it returns iff the key does not name the client, else tries again at the version found; after any other answer it returns |
| `ShardServer.KVServer.constructor` | src/shardkv1/shardgrp/server.go:48-59 | the first group serves every shard, the others none |
| `ShardServer.KVServer.DoGet` | src/shardkv1/shardgrp/server.go:100-120 | refines GetRec, which MigrationProof.ServingAnswers, FrozenAnswers and WrongGroupExactly give |
| `ShardServer.KVServer.DoPut` | src/shardkv1/shardgrp/server.go:123-153 | refines PutRec; no other shard changes |
| `ShardServer.KVServer.DoFreeze` | src/shardkv1/shardgrp/server.go:156-185 | refines FreezeRec; no other shard changes |
| `ShardServer.KVServer.DoInstall` | src/shardkv1/shardgrp/server.go:188-205 | refines InstallRec; no other shard changes |
| `ShardServer.KVServer.DoDelete` | src/shardkv1/shardgrp/server.go:208-227 | refines DeleteRec; no other shard changes |
| `Controller.Groups.CompleteChange` | src/shardkv1/shardctrler/shardctrler.go:97-168 | undisturbed, the loop leaves the records Completed gives |
| `Controller.ChangeMovesData` | src/shardkv1/shardctrler/shardctrler.go:123-164 | every moved shard is then served by its new owner with the old owner's data, the old owner has given it up, and nothing else has changed |
| `Controller.RerunIsHarmless` | src/shardkv1/shardctrler/shardctrler.go:97-168 | from whatever state it starts, running a whole change a second time changes nothing |
| `MigrationProof.SingleWriter` | src/shardkv1/shardgrp/server.go:123-227 | in every orderly run at most one group serves a shard, and its data is the replay of every write ever accepted, each of which succeeds in that replay |
| `MigrationProof.NothingLost` | src/shardkv1/shardctrler/shardctrler.go:97-168 | at every moment of every orderly run some group that serves or has frozen the shard holds the replay of every accepted write |
| `MigrationProof.ServingAnswers` | src/shardkv1/shardgrp/server.go:100-153 | in every orderly run a Get at the group serving a shard returns the value of the last accepted put on the key and the number of accepted puts, ErrNoKey iff there is none; a Put there succeeds iff it names that number, with ErrNoKey or ErrVersion otherwise |
| `MigrationProof.WrongGroupExactly` | src/shardkv1/shardgrp/server.go:100-133 | a Get is answered ErrWrongGroup iff the group does not have the shard, a Put iff it does not serve it, and then it changes nothing |
| `MigrationProof.FrozenAnswers` | src/shardkv1/shardgrp/server.go:100-120 | in every orderly run a group that a request froze answers Gets from the puts accepted up to that moment, for as long as it stays frozen under that number |
| `MigrationProof.FreezeDoes` | src/shardkv1/shardgrp/server.go:156-185 | a freeze stops puts unless its number is old, changes no data, raises the number, and hands the data out iff its number is not old and the group has the shard |
| `MigrationProof.FreezeHandsOut` | src/shardkv1/shardgrp/server.go:156-185 | in every orderly run what a freeze takes from the serving group is, key by key, what the accepted puts make |
| `MigrationProof.InstallDoes` | src/shardkv1/shardgrp/server.go:188-205 | an install changes nothing unless its number is new; then the group serves exactly the keys and entries it was given |
| `MigrationProof.DeleteDoes` | src/shardkv1/shardgrp/server.go:208-227 | a delete changes nothing if its number is old; else the group has neither the shard nor any of its keys |
| `MigrationProof.NumbersAgreed` | src/shardkv1/shardctrler/shardctrler.go:172-214 | claimed configurations are numbered consecutively, one content each; the published ones are the claimed ones in order, all but at most the last; visible <= pending <= visible + 1 |
| `MigrationProof.ClaimSettles` | src/shardkv1/shardctrler/shardctrler.go:172-194 | a claim's read goes on to move shards iff the pending configuration is its own, gives up iff it is another newer than the one it started from, and otherwise puts its own over the version read |
| `MigrationProof.ClaimGoesOn` | src/shardkv1/shardctrler/shardctrler.go:172-194 | a controller whose claim took effect goes on to move the shards while its configuration is pending, whether it hears of it or reads again |
| `MigrationProof.PostSettles` | src/shardkv1/shardctrler/shardctrler.go:196-214 | a controller unsure of its publication is done iff a configuration that new is visible, else publishes over the version read |
| `Reconfiguration.RecoversExactly` | src/shardkv1/shardctrler/shardctrler.go:45-53 | a recovery that reads both keys in one state goes on iff the pending configuration is not yet published, from the visible one, and can work from the owners it read |
| `Reconfiguration.CanFinish` | src/shardkv1/shardctrler/shardctrler.go:45-53 | from every state of every orderly run, whatever the other controllers are at or crashed in, one controller can restart and publish the pending configuration; then every shard is served by its owner, and every Get there finds what the accepted puts made |
| `Reconfiguration.CanReconfigure` | src/shardkv1/shardctrler/shardctrler.go:79-214 | and it can then move to any assignment of shards to existing groups, which becomes the next configuration, with every shard served where it says and no accepted put lost |
| `MigrationProof.PublishedMoved` | src/shardkv1/shardctrler/shardctrler.go:165-167 | in every orderly run, once all that was claimed is published, no group but a shard's owner serves it or keeps a copy |
| `MigrationProof.AdjacentIsOrderly` | src/shardkv1/shardctrler/shardctrler.go:45-53 | a recovery that read adjacent numbers can work from the owners it read |
| `StaleRecovery.RecoverySafeExactly` | src/shardkv1/shardctrler/shardctrler.go:45-53 | from every reachable state with a recovery about to resume: all that can follow in orderly steps is safe (one writer, no accepted write lost, nobody but the owner once published) if and only if for every shard it read the owner before the pending configuration or that configuration's move is finished |
| `StaleRecovery.StaleRecoveryLoses` | src/shardkv1/shardctrler/shardctrler.go:123-154 | from every reachable state with a recovery that read a wrong owner of a shard whose pending move has not arrived, when a write was accepted or still can be: orderly steps lead to a group that serves the shard without the accepted writes, also when the wrong owner is the destination; when it is not, a true owner that is to give the shard up is left as it was, so that if it serves there are two writers |
| `MigrationProof.StrayStep` | src/shardkv1/shardgrp/server.go:156-227 | a request to a group that is not the source of a finished move changes nothing if that group has the shard, and otherwise does not give it the shard |
| `StaleRecovery.StaleReadIsReachable` | src/shardkv1/shardctrler/shardctrler.go:45-53 | an orderly run after which InitController holds configuration 1 while 3 is pending and a write is with configuration 2's owner |
| `MigrationProof.FreezeServing` | src/shardkv1/shardgrp/server.go:156-185 | the first freeze of a number stops the writer with all accepted writes in place |
| `MigrationProof.InstallFirst` | src/shardkv1/shardgrp/server.go:188-205 | the first install of a number makes the destination the writer with all accepted writes |
| `MigrationProof.DeleteFrozen` | src/shardkv1/shardgrp/server.go:208-227 | a delete drops only a copy whose shard has arrived |
| `MigrationProof.OldRequest` | src/shardkv1/shardgrp/server.go:163-167 | a delayed or repeated request of a published number finds its move finished |
| `MigrationProof.Written` | src/shardkv1/shardgrp/server.go:123-153 | only the group holding the shard's data accepts a write |
| `Balance.SquaresDrop` | src/shardkv1/shardcfg/shardcfg.go:140-153 | each move takes at least 2 off the sum of squared loads |
| `Balance.RebalancedEven` | src/shardkv1/shardcfg/shardcfg.go:122-154 | from any assignment every shard ends with a member and loads differ by at most one |
| `Balance.JoinMoves` | src/shardkv1/shardcfg/shardcfg.go:207-213 | when groups join an even configuration, shards move only to them, never between old groups |
| `Balance.JoinOneMoves` | src/shardkv1/shardcfg/shardcfg.go:207-213 | when one group joins k others, exactly floor(N/(k+1)) shards move |
| `Balance.JoinMovesLeast` | src/shardkv1/shardcfg/shardcfg.go:207-213 | no even assignment over the old and new groups moves fewer shards than Rebalance does |
| `Balance.LeaveMovesOnlyTheirs` | src/shardkv1/shardcfg/shardcfg.go:215-221 | when groups leave an even configuration exactly their shards change hands |
| `Balance.EvenShare` | src/shardkv1/shardcfg/shardcfg.go:238-279 | an even assignment gives each group its share rounded down, or one more |
| `Balance.RebalanceByStep` | src/shardkv1/shardcfg/shardcfg.go:122-154 | the result is reached shard by shard: each unowned shard in turn goes to the emptiest group, smallest id first; then, while loads differ by more than one, the first shard of the fullest group goes to the emptiest; without groups every shard is unassigned |
| `Balance.StepsAreForced` | src/shardkv1/shardcfg/shardcfg.go:122-154 | each of those steps has one outcome, so every replica that rebalances gets the same assignment |
| `ShardCfg.ShardConfig.constructor` | src/shardkv1/shardcfg/shardcfg.go:44-49 | no groups, every shard unassigned |
| `ShardCfg.ShardConfig.Analyze` | src/shardkv1/shardcfg/shardcfg.go:80-111 | the most and the least loaded group, the smallest id first |
| `ShardCfg.ShardConfig.Rebalance` | src/shardkv1/shardcfg/shardcfg.go:122-154 | terminates with the assignment Rebalanced gives |
| `ShardCfg.ShardConfig.Join` | src/shardkv1/shardcfg/shardcfg.go:156-183 | succeeds iff there are new groups, none reuses an id or a server; then exactly they are added and the number rises by one; otherwise the number stays, and some of them that could join have been added before one that could not |
| `ShardCfg.ShardConfig.Leave` | src/shardkv1/shardcfg/shardcfg.go:185-205 | succeeds iff the ids are present and distinct; then exactly they are removed and the number rises by one; otherwise the number stays and exactly the ids before the first missing or repeated one are gone |
| `ShardCfg.ShardConfig.JoinBalance` | src/shardkv1/shardcfg/shardcfg.go:207-213 | Join, then the rebalanced assignment; the assignment is unchanged when Join is refused |
| `ShardCfg.ShardConfig.LeaveBalance` | src/shardkv1/shardcfg/shardcfg.go:215-221 | Leave, then the rebalanced assignment; the assignment is unchanged when Leave is refused |
| `MapReduce.SameMeaning` | src/mr/worker.go:120-198 | for every input, hash, number of buckets, map function and order-blind reduce function, and whichever way either program's sort orders equal keys, the reduce tasks together print the sequential program's lines, each as often |
| `MapReduce.OwnBucketOnly` | src/mr/worker.go:138-141 | each key's line is printed by its own bucket's reduce task and by no other |
| `MapReduce.PrintedText` | src/mr/worker.go:180-193 | the text printed for what was emitted is, for each key once and in ascending order, the key, a space, the reduction of all its values and a newline |
| `MapReduce.LeqMeans` | src/mr/worker.go:171-173 | keys are in lexicographic order |
| `MapReduce.SortedExact` | src/main/mrsequential.go:63-84 | any sort by key, grouped and reduced, gives one line for each key: the reduction of all its values |
| `MapReduce.BucketValues` | src/mr/worker.go:138-141 | a key's values are all in its own bucket and none elsewhere |
| `MapReduce.DoMap` | src/mr/worker.go:120-148 | every bucket file holds the pairs that hash to it, in order |
| `MapReduce.DoReduce` | src/mr/worker.go:150-198 | the output is that of a sorted copy of what the reduce task's files hold, missing files skipped |
| `MapReduce.Group` | src/mr/worker.go:180-193 | the index loops print one line for each run of equal keys |
| `MapReduce.SortByKey` | src/mr/worker.go:171-173 | a sorted permutation |
| `MapReduce.Sequential` | src/main/mrsequential.go:25-87 | the output is that of a sorted copy of everything the map function emits |

## Left out

- RaftPeer: locks and goroutines; each method is one critical section, and their interleavings are the actions of `Cluster`.
- Controller.Groups.CompleteChange: one controller alone; the retry loops of claimPendingConfig and postConfig, and everything concurrent, are the steps of `Migration.Step`.
- Cluster: the apply channel is unbounded, and closing it (`dead`) is covered only by a crash.
- Cluster: the network may repeat a request or a reply, which the original's does not do.
- Cluster: a snapshot may be taken whenever something has been applied; the size test of `maybeSnapshot` is not modelled.
- RaftNode.Make: labgob decoding is the inverse of encoding, so the decode error path does not appear.
- IdReuse.ReusedIdAnswered: its runs are of five peers; whether a given state can lead to a mistaken answer, which depends on what logs and messages still hold the old operation, is not characterised.
- SimulationLog.BackupLowers: says that nextIndex falls or is at its floor; a follower's hint after its own compaction may point up and is then clamped. That replication can converge is `Progress.Syncs`.
- Liveness everywhere: that elections succeed, retry loops end and controllers finish can always still happen is proved; that it does happen would need assumptions about timers and the network.
- Clerk.VerdictsTruthful: is about the kvsrv1 clerk, `KvraftClerk.VerdictsTruthful` about the kvraft1 clerk; the shard clerk moves to another replica without recording the attempt, and its verdicts are not claimed.
- KvraftClerk: an attempt reaches at most one server once, as the RPC library delivers it; the choice of the server (`leader`, `advance`) is arbitrary.
- Lock.MutualExclusion: one lock name; Release is called by a client that holds the lock.
- Migration: a group is one atomic object that keeps its state, every configuration assigns each shard to an existing group, and InitConfig has happened.
- MigrationProof.FrozenAnswers: a frozen copy still answers reads, from the writes up to its freeze, while the new owner may already have accepted others, so reads during a move are not linearizable.
- ShardServer.KVServer.constructor: the snapshot and restore of the whole record array, as a copy and its assignment.
- ShardCfg.ShardConfig.Analyze: at most 256 shards, below the sentinel 257 of the source, which has 12.
- ShardCfg.ShardConfig.Join: which new group it stops at, when several cannot join, since map order is random.
- MapReduce.SameMeaning: every map task has written its files; the coordinator's task table and barrier, file input and output, JSON encoding and plugins are not modelled.
- Key2Shard, ihash, Copy, GidServers, IsMember, CheckConfig, and the shard clerk's routing: they would add only easy members.
