# Verification of the Raft key-value store

This project models the Raft engine of the repository (`raft/`), the key-value
state machine behind it (`store/kv_state_machine.go`), the apply loop and
restart (`cmd/node/main.go`) and the client read and write path
(`client/http.go`), and proves what they guarantee over every run of any number
of nodes.

## How it is built

There are four layers, each tied to the next.

1. **The node.** `RaftNode.dfy` is the node as a class, field by field and method
   by method, with its vote, append, commit, compaction and membership loops.
   Every method is proved equal to an operation on an abstract node
   (`NodeModel.dfy`) that keeps the *whole* log, while the class keeps only the
   entries after its snapshot. `KvStateMachine.dfy` is the store with its memory
   map and its stored bucket. `Protocols.dfy` and `Proposals.dfy` hold the
   procedures that drive a node from outside its lock: elections, replication
   rounds, proposals, reads, the apply loop and the restart.
2. **The cluster.** `Cluster.dfy` is a transition system over a map of abstract
   nodes, with a network that delays, reorders, repeats and loses messages, and
   with crashes at any moment. Its steps are the operations of the first layer. A
   history records votes, leaders, the log of each term, what each node stored in
   each term and what was committed; no node reads it.
3. **Safety.** `Invariants.dfy` states one inductive invariant. `QuietSteps.dfy`,
   `ElectionSteps.dfy`, `CommitSteps.dfy`, `GrowthSteps.dfy`, `AppendSteps.dfy`
   and `ClusterProof.dfy` prove that each of the fifteen steps keeps it. Its core
   is that, for every entry a term's leader ever wrote, every later leader's log
   either has it or a majority can no longer store it (`Carries`). `Evolution.dfy`
   says how the past stays true, so `Safety.dfy`, `Replication.dfy` and
   `PreVote.dfy` speak about any two moments of a run.
4. **Clients.** `Service.dfy` adds the stores and the client operations, with
   crashes in the middle of an apply, and `ServiceInvariant.dfy` what they keep.
   `Linearizability.dfy` proves that confirmed operations are linearizable, exactly
   which reads are, and what every store and every restart holds; `Positions.dfy`
   that no two operations share a place in the log.

`CatchUp.dfy`, `Compaction.dfy`, `Membership.dfy`, `Votes.dfy`, `Settling.dfy`,
`LogLemmas.dfy`, `RoundTheorems.dfy`, `KvStore.dfy` and `ApplyRaces.dfy` hold the
results about one node, one pair of nodes or one store. What each procedure of the
first layer is for is stated apart from how it computes: `Applying.dfy` (what store
and which members applying leaves), `RoundOutcomes.dfy` (how a round and a repeated
proposal end), `Elections.dfy` (when an election is won and what it leaves otherwise),
`Answers.dfy` (when votes are granted and appends accepted), `MembershipCommits.dfy`
(what a membership change counts and commits).

`Scenarios.dfy` and `ThreeNodes.dfy` build runs event by event: elections,
proposals, refused and accepted appends, counted replies. `LostWrite.dfy`,
`StaleRead.dfy`, `DelayedReply.dfy`, `AppendRace.dfy` and `StuckFollower.dfy` use them
to show, for any three nodes, that a failure is reached.

## What the cluster theorems assume

The code relies on the following without enforcing it.

- The check that a node leads and its append are one step. `raft/proposal.go:20-24`
  takes the lock twice and `AppendLocal` (`raft/node.go:348-371`) does not look at
  the role. A node that still leads keeps every log matching
  (`Replication.LeaderAppendMatches`); `AppendRace.LateAppendBreaksMatching` is a run
  in which a node that passed the check appends as a follower of a later term.
- A successful AppendEntries reply is not counted by a node that has come to lead a
  later term than the request's. `raft/heartbeat.go:81-88` and `raft/node.go:396-408`
  do not compare the two terms. `Settling.RecordingMovesCommitExactly` says when
  counting one moves the commit index; `DelayedReply.EarlierSuccessIsMiscounted` is a
  run in which it commits an entry that no other node holds.
- `ApplyCommitted` calls, and a snapshot followed by `Compact`, are serialised
  (`raft/node.go:463-485`, `cmd/node/main.go:219-223`, `client/http.go:181`,
  `client/http.go:250`). One call after the other keeps the store exact
  (`ApplyRaces.SerialCallsAreExact`). `KvStore.LateApplyExactly` says when an entry
  applied late by one of two overlapping calls changes the store, and
  `ApplyRaces.OverlapCanSpoilStore` is a run of two calls that does. A snapshot that
  is stored with a later index than it was taken at restores the right store exactly
  under the condition of `KvStore.SnapshotRestoresExactly`.
- Membership is fixed: every node lists every other node once. Membership changes
  are covered for one node only.
- Saving to the store succeeds and is atomic. Terms and indices are natural numbers.

Nothing is assumed about proposals: an operation is answered as soon as the commit
index reaches its index, as in `raft/proposal.go:57-61`.

## Where the code falls short of its promise

- **Writes and reads.** `docs/architecture.md:69-84` promises that a write is
  answered once it commits and that a read is ordered after all committed writes.
  The code compares indices only. An answered operation is the committed entry at
  its index if and only if the node's log still holds the proposed term there
  (`Linearizability.Linearizable`), which a node that still leads its term always
  has (`StillLeadingConfirms`). From its snapshot index on the node can tell by its own
  term lookup, below it not (`NodeCanTell`), except that a snapshot of an earlier term
  says no (`EarlierSnapshotTells`). `LostWrite.AnsweredWriteCanBeLost` gives, for any
  three nodes and any write, a run in which a write is answered and lost.
  A read is ordered after what was committed when it began if and only if the store
  had applied all of that (`Linearizability.ReadTimelyExactly`), which a confirmed read
  always has. `StaleRead.LaterReadCanMissWrite` gives, for any three nodes and any
  write, a run in which a read that begins after the write was answered does not see
  it.
- **Restart.** A saved empty peer list is read back as absent (`raft/types.go:25`),
  so the startup list returns. `Protocols.ReloadRebuilds` gives the exact condition
  under which a restart rebuilds the node.
- **Catching up.** A leader's backing up ends with an agreeing follower exactly under
  the condition of `CatchUp.CatchUpExact`. Besides the leader's own compaction
  (`docs/architecture.md:90`) it fails when a compacted leader takes up behind the
  follower's snapshot: `StuckFollower.FollowerCanBeStuck` reaches that with one lost
  reply, whatever the number of entries after which the leader compacts (64 in
  `cmd/node/main.go:28`), and only a further compaction at the leader ends it
  (`CatchUp.StuckUntilCompaction`).
- **Replay.** Between a restart without a snapshot and the point where the store
  has caught up, a key may show a later value. `KvStore.ReplayIsExactAt` says for
  which keys; from the point of the crash on there is no difference
  (`KvStore.ReplayConverges`).
- **One vote per term** (`docs/architecture.md:108`) holds over everything a node can do
  until it applies its own removal, which clears the vote (`raft/node.go:618-622`):
  `Votes.VoteForgottenExactly`, `Votes.SecondVoteNeedsRemoval` and, for the second
  vote, `Votes.RemovalForgetsVote`.
- **Appends.** A request that names term zero for a previous entry beyond the end of
  the log passes the consistency check and leaves a log whose indices are not its
  positions (`LogLemmas.AcceptedIsHeldExactly`, `LogLemmas.PlacedNumbered`). No node
  sends one (`Replication.RequestsAreSound`).

## Model

| member | source | states |
|---|---|---|
| `Safety.LeaderCompleteness` | raft/node.go:579-601 | in every run, whatever any node has committed is in the log of every leader of a later term at every moment of its reign, and of the same term's leader from then on |
| `Safety.ElectionSafety` | raft/election.go:27-81 | over a whole run, delayed messages and restarts included, at most one node ever leads a term |
| `Safety.LogMatchingHolds` | raft/node.go:500-529 | logs of any two nodes at any two moments that hold the same term at an index agree on everything up to it, compacted entries included |
| `Safety.LeaderAppendOnly` | raft/node.go:348-371 | while a node leads a term its log only grows, and only by entries of that term |
| `Safety.StateMachineSafety` | raft/node.go:463-485 | no two nodes, at any moments, restarts and snapshots included, have applied different entries at an index |
| `Safety.CommittedInClog` | raft/node.go:332-338 | what any node has committed stays, for the rest of the run, a prefix of the one committed log |
| `Safety.ClogGrows` | raft/node.go:579-601 | the committed log is never rewritten |
| `Safety.IndexOrder` | raft/node.go:434-461 | snapshot index, applied index, commit index and last index are in that order in every reachable state |
| `ClusterProof.InitHolds` | raft/node.go:37-73 | freshly constructed nodes and an empty network satisfy the invariant |
| `ClusterProof.StepKeeps` | raft/node.go:187-640 | each of the fifteen cluster steps keeps the invariant and never takes back what the history records |
| `ClusterProof.StepIsOperation` | raft/node.go:187-640 | a cluster step changes only its actor, and changes it by one of the node's own operations |
| `ElectionSteps.UpToDateCarries` | raft/types.go:131-136 | a log that passes the freshness comparison against a voter's log has every entry of the voter's that can still be committed |
| `GrowthSteps.WinnerIsElected` | raft/election.go:54-78 | the votes a winner counts are votes cast for it in its term by a majority |
| `GrowthSteps.WinnerCarries` | raft/election.go:179-191 | the log of a node that wins an election has every entry of an earlier term that can still be committed |
| `GrowthSteps.LateEntryIsBlocked` | raft/node.go:348-371 | an entry written in a term after a later term has a leader can never be stored by a majority in its own term |
| `CommitSteps.CommitFromExact` | raft/node.go:579-601 | the commit loop finds the greatest index beyond the commit index whose entry is of the current term and held by a majority, if there is one |
| `CommitSteps.HoldersCount` | raft/node.go:589-594 | the inner counting loop counts the distinct peers that hold the index |
| `CommitSteps.CommittableIsAcked` | raft/node.go:579-601 | an index the commit rule accepts has been stored, in the leader's term, by a true majority |
| `CommitSteps.CommittedPointsAgree` | raft/node.go:579-601 | what the leaders of any two terms have committed lies on one log |
| `Replication.MatchIndexSound` | raft/heartbeat.go:85-89 | whenever a leader's match index for a peer reaches n, the peer held the leader's log through n at some moment of the leader's term, whatever the order of replies |
| `Replication.CommittableIsHeld` | raft/node.go:579-601 | whenever the commit rule accepts n, more than half of the cluster's nodes held the leader's log through n in its term |
| `Replication.LeaderBookkeeping` | raft/heartbeat.go:116-137 | progress maps exist exactly at leaders, for exactly the peers, with next index between 1 and last index + 1, so repairing progress never changes anything |
| `Replication.RequestsAreSound` | raft/node.go:373-394 | every request ever sent names the term of its previous entry, announces no commit beyond its last entry, and can be handled by its receiver at any later time |
| `Replication.FollowerCommitIsVerified` | raft/node.go:332-338 | a follower's commit index rises only to an index up to which its log agrees with the leader's |
| `Replication.AppliesInOrder` | raft/node.go:548-566 | outside a restart the commit index never falls and the applied index rises by one, through an apply alone; committed entries never change |
| `Replication.LogsArePlain` | raft/node.go:348-359 | with membership fixed no log ever holds a membership entry |
| `Replication.ApplyStepIsApplyNext` | raft/node.go:463-485 | the cluster's apply step is what ApplyCommitted does with its next entry |
| `Replication.LeaderAndPeerPair` | raft/node.go:373-425 | every reachable leader and every peer no later than its term meet the premises of the catch-up theorem |
| `Replication.LeaderIsReady` | raft/node.go:348-371 | every reachable leader, having appended, meets the premises of the majority-round theorem |
| `Replication.CompactedFollowsAlike` | raft/node.go:500-529 | in every run, an append that a compacted node accepts ends as it would had the node compacted nothing |
| `PreVote.TermGrowth` | raft/election.go:83-137 | between any two moments of a run the highest term, in nodes and messages, rises by at most one per pre-vote won |
| `PreVote.TermsNeedPreVotes` | raft/election.go:14-31 | no term ever exceeds the number of pre-votes won |
| `PreVote.IsolatedNodeKeepsTerm` | raft/election.go:21-24 | in a cluster of more than one a node that hears from no one and holds no won pre-vote keeps its term |
| `LogOps.FirstDifference` | raft/node.go:507-527 | the scan returns the first offset whose entry is missing or of another term, every offset before it being matched |
| `LogOps.MergeFollowsLeader` | raft/node.go:500-529 | an accepted request for entries prev+1..m of a leader's log leaves the follower agreeing with the leader through m, either unchanged or equal to that prefix |
| `LogOps.MergeKeepsAgreement` | raft/node.go:500-529 | a merge never removes entries the log already shares with the leader |
| `LogLemmas.MergeNumbered` | raft/node.go:737-745 | merging keeps entry number k at index k |
| `LogLemmas.PlacedNumbered` | raft/node.go:500-529 | handling a request keeps entry number k at index k if and only if it does not start beyond the end of the log or carries nothing |
| `LogLemmas.MergedTerms` | raft/node.go:500-529 | after a merge every entry of the request beyond the snapshot is matched |
| `LogLemmas.MergeIdempotent` | raft/node.go:500-529 | delivering a request a second time changes nothing |
| `LogLemmas.StaleRequestKeeps` | raft/node.go:507-527 | an older, shorter request of the same leader removes nothing that a newer one added |
| `LogLemmas.AcceptedIsHeldExactly` | raft/node.go:500-505 | passing the consistency check means still holding the previous entry if and only if the request names a nonzero term, or an entry the node holds, or none |
| `LogLemmas.CompactionInvisible` | raft/node.go:500-529 | a request accepted by a compacted log is accepted by the whole log, with the same outcome, if it agrees with the compacted entries it overlaps |
| `Compaction.CompactKeepsView` | raft/node.go:434-461 | compaction keeps the last index and term, every term lookup from the snapshot on, the requests built, the commit rule and everything applied afterwards |
| `Compaction.ApplyAllAt` | raft/node.go:463-485 | applying goes through the same entries to the same store wherever the snapshot index lies |
| `Compaction.AppendAt` | raft/node.go:294-346 | handling an append leaves a compacted and an uncompacted node alike |
| `CatchUp.AcceptedExactly` | raft/node.go:500-505 | a follower accepts the leader's request exactly when it starts at the beginning or at a point the follower still holds and agrees on |
| `CatchUp.AcceptedCatchesUp` | raft/node.go:500-529 | once it accepts, the follower agrees with the leader through the leader's last entry |
| `CatchUp.RefusedBacksUp` | raft/node.go:410-425 | a refusal moves the leader back by exactly one entry, or not at all at its own snapshot, and keeps the pair's premises |
| `CatchUp.CatchUpExact` | raft/heartbeat.go:70-99 | the exchange ends with a follower that agrees through the leader's last index if and only if the leader has compacted nothing, or has kept the last point of agreement and not backed up behind the follower's snapshot; it takes exactly the distance in refusals, fewer than the first next index |
| `CatchUp.RefusedGetsCloser` | raft/node.go:410-425 | with appends, commits, applies and compactions at either node between requests, each refusal of a pair that can catch up brings it strictly closer |
| `CatchUp.RefusalsAreBounded` | raft/heartbeat.go:70-99 | so, whatever happens in between, at most the first distance of requests is refused, fewer than the first next index |
| `CatchUp.RefusedAtADistance` | raft/node.go:500-505 | a pair that can catch up is refused exactly as long as there is a distance left, so it ends in acceptance |
| `CatchUp.StuckUntilCompaction` | raft/node.go:373-394 | a pair that cannot catch up can do so later if and only if the leader, still holding the last point of agreement, has compacted up to the follower's snapshot |
| `KvStore.ReplayConverges` | store/kv_state_machine.go:45-69 | replaying entries over a state that has already seen some of them gives the fold of the whole log from the point where it reaches both |
| `KvStore.LastWriteWins` | store/kv_state_machine.go:45-69 | after any log a key holds what the last entry writing it put there, and is absent if that entry deletes it |
| `KvStore.LateApplyExactly` | raft/node.go:463-485 | applying an entry again after later ones changes the store if and only if the last of them that writes its key has another effect |
| `KvStore.SnapshotRestoresExactly` | cmd/node/main.go:218-225 | a snapshot of the first a entries stored with index b gives, with the entries after b, the right store at every later index if and only if the first a and the first b entries leave the same store |
| `ApplyRaces.SerialCallsAreExact` | raft/node.go:463-485 | while one call at a time takes, hands over and marks entries, the store is the fold of what is applied and of the entry handed over |
| `ApplyRaces.OverlapCanSpoilStore` | raft/node.go:463-485 | for any log in which the last write of a key has another effect than an earlier one, two overlapping calls can end with everything applied and a store that is not the fold of the log |
| `KvStore.ConvergedIsExact` | cmd/node/main.go:94-102 | a store that has caught up with what it had seen before the restart is exactly the fold of what it has applied |
| `KvStore.ReplayIsExactAt` | cmd/node/main.go:94-102 | while replaying, a key shows its value at that point if and only if a replayed entry wrote it or the key is absent from what was seen |
| `Linearizability.EventKeeps` | client/http.go:137-182 | every cluster step, crash, proposal and answer keeps the service invariant: stores converge to the committed log and operations match it |
| `Linearizability.ConfirmedExactly` | raft/proposal.go:57-61 | once the commit index has reached a proposal, the committed entry there is the proposed one if and only if the node's log still holds the proposed term, and it was then committed after the operation began |
| `Linearizability.Linearizable` | client/http.go:137-182 | an answered operation took effect if and only if it was confirmed; a confirmed one takes effect between its beginning and its answer, and a confirmed read returns the value at its point of the committed log |
| `Linearizability.ReadTimelyExactly` | client/http.go:160-182 | a read, confirmed or not, returns the value its key has at a point of the committed log between its beginning and its answer if and only if its store had applied all that was committed when it began; otherwise it is as of that moment unless a missed entry writes its key |
| `Linearizability.ReadReturnsLastWrite` | client/http.go:160-167 | a read whose store had applied all that was committed when it began returns what the last committed write of its key before its point wrote, and not found if there is none or it is a delete |
| `Linearizability.StillLeadingConfirms` | raft/proposal.go:29-46 | an operation answered by a node that still leads the term it proposed in is confirmed |
| `Linearizability.NodeCanTell` | raft/node.go:707-718 | from its snapshot index on a node's term lookup decides whether a proposed entry is still there; below it some node with the same view has the other answer |
| `Linearizability.EarlierSnapshotTells` | raft/node.go:707-718 | in a log whose terms do not fall, a snapshot of a term before the proposal's means that the entry is not there |
| `Linearizability.HistoryRises` | raft/node.go:500-529 | in every run the terms in a log never fall |
| `Linearizability.RealTimeOrder` | client/http.go:137-182 | of two confirmed operations anywhere in the cluster, the one answered before the other began takes effect first, so a read sees every write answered before it began |
| `Linearizability.StoresAreFolds` | store/kv_state_machine.go:45-69 | in every history each store that has caught up with what it had seen before its last restart is the fold of the committed log up to what it has applied |
| `Linearizability.RestartRestores` | cmd/node/main.go:94-102 | in every history, wherever a node stops, even between applying an entry and marking it, replaying its log from its snapshot over what a restart loads gives the fold of the committed log at every committed index that covers what the store had seen |
| `Positions.ProposalsApart` | raft/node.go:348-371 | in every history no two operations were proposed for the same term and index |
| `Positions.ConfirmedApart` | client/http.go:137-182 | no two confirmed operations are the same committed entry, so confirmed writes are ordered even when they overlap |
| `StaleRead.LaterReadCanMissWrite` | client/http.go:160-182 | for any three nodes and any write there is a run in which the write is answered, a read begins afterwards, and the read answers that the key is not there |
| `LostWrite.AnsweredWriteCanBeLost` | raft/proposal.go:29-46 | for any three nodes and any write there is a run that answers the write although another entry is committed at its index and no committed entry holds it |
| `DelayedReply.EarlierSuccessIsMiscounted` | raft/heartbeat.go:81-88 | for any three nodes and any command there is a run at whose end a success sent to a leader in an earlier term, if counted, commits an entry of its own term that no other node holds |
| `Settling.LeaderIsSettled` | raft/node.go:579-601 | in every reachable state every leader has committed all that the commit rule lets it |
| `Settling.RecordingMovesCommitExactly` | raft/node.go:396-408 | recording a success through m, whatever its term, moves the commit index if and only if some index up to m of the leader's term was one holder short of a majority and not yet counted for that peer, and then to the last such index |
| `AppendRace.LateAppendBreaksMatching` | raft/proposal.go:20-24 | for any three nodes there is a run in which one leads, later follows in another's term, and by appending then no longer matches that leader's log |
| `Replication.LeaderAppendMatches` | raft/proposal.go:20-24 | in every run an append by a node that still leads matches every log there is |
| `Replication.AppendMatchesExactly` | raft/node.go:348-371 | an append keeps a log matching another if and only if the other has no entry of the node's term at that index, or the same entries up to it |
| `StuckFollower.FollowerCanBeStuck` | raft/node.go:410-425 | for any three nodes and any number n of entries after which the leader compacts there is a run after which that leader, having kept the last point of agreement, can never make its peer, which has compacted one entry more, accept |
| `MembershipChanges.ChangesAreSerialised` | raft/node.go:348-359 | a membership entry is appended only when every membership entry of the log, retained or compacted, is applied and committed |
| `MembershipChanges.AppendRefusedExactly` | raft/node.go:348-359 | an append is refused, leaving the node alone, if and only if it is a membership change and another one in the log is not applied |
| `MembershipCommits.AddedProgress` | raft/node.go:607-616 | a new member of a leader is to be sent what comes after the leader's log and is known to hold nothing; the other peers' progress stays |
| `MembershipCommits.RemovedProgress` | raft/node.go:624-632 | a removed member is no longer known; the other peers' progress stays |
| `MembershipCommits.ChangeCommitsWhatIsHeld` | raft/node.go:603-640 | what a leader commits in applying a change ends in its own term and is held, by its match indices from before the change, by a majority of the new configuration; a new member is not counted |
| `MembershipCommits.AddingCommitsNothing` | raft/node.go:607-638 | a leader that has committed all it may keeps its commit index when it takes in a member |
| `MembershipCommits.ChangeSettles` | raft/node.go:638 | after a change a leader has committed all the rule lets it in the new configuration |
| `MembershipCommits.NewMemberStartsAtTheEnd` | raft/node.go:611-615 | the first request to a new member carries nothing and starts at the end of the leader's log; the member accepts it if and only if it listens, is in no later term and holds the leader's last entry |
| `MembershipCommits.RemovedNodeIsOut` | raft/node.go:618-623 | a node that applies its own removal no longer leads, commits nothing by it, and grants no vote or pre-vote and is not promoted from then on |
| `MembershipChanges.OneChangeAtATime` | raft/node.go:655-665 | after an append at most one membership entry of the log is not applied |
| `MembershipChanges.ChangesOneMember` | raft/node.go:603-640 | applying a change adds or removes exactly the named member and keeps the list free of duplicates and of the node itself |
| `MembershipChanges.ClusterSizeCounts` | raft/node.go:677-683 | the size used for majorities is the number of members |
| `MembershipChanges.AdjacentMajoritiesMeet` | raft/election.go:193-195 | majorities of two member sets, of any size, that differ by one member share a member |
| `MembershipChanges.ConfigurationsOverlap` | raft/node.go:603-640 | any majority of the configuration before a change meets any majority of the one after it |
| `Votes.VoteChangesExactly` | raft/node.go:233-272 | of all operations of a node that leave its term, exactly applying its own removal changes a vote it has cast |
| `Votes.VoteForgottenExactly` | raft/node.go:618-622 | over any sequence of operations within a term, a vote is forgotten at some point if and only if the node applies its own removal |
| `Votes.SecondVoteNeedsRemoval` | raft/node.go:233-272 | a node that grants two candidates in one term has applied its own removal in between |
| `Votes.RemovalForgetsVote` | raft/node.go:618-622 | a node that applies its own removal and return grants any fresh peer in the same term, where it would otherwise grant only the one it voted for |
| `Rounds.ReplicatedKeeps` | raft/heartbeat.go:44-102 | a round leaves members and log alone, never takes the commit index back, and ends a leadership only through a later term |
| `Rounds.ProposalKeeps` | raft/proposal.go:13-55 | a proposal leaves an entry exactly when the node leads and no membership change is pending, and succeeds only with that entry within the commit index |
| `Applying.ApplyAllReplays` | raft/node.go:463-485 | applying everything committed puts each of those entries into the store once, in the order of the log, and leaves nothing committed unapplied |
| `Applying.ApplyAllInStep` | raft/node.go:463-485 | a store that is the fold of what its node has applied stays so, with every committed entry in it |
| `Applying.ApplyAllCatchesUp` | cmd/node/main.go:94-102 | a store that is ahead of its node after a restart is the fold again once everything it had seen is applied |
| `Applying.LookupFindsLastWrite` | client/http.go:160-182 | a lookup in such a store finds what the last applied write of the key left, and nothing if there is none |
| `Applying.ApplyAllMembers` | raft/node.go:463-485 | the members end as those from before with every applied change made in the order of the log |
| `Applying.CompactInStep` | raft/node.go:434-461 | compacting leaves a snapshot of exactly the entries it discards, and the store in step |
| `Applying.RestartAndApply` | cmd/node/main.go:94-102 | a node that starts again from its snapshot applies its way back to the store of the log up to any index it hears is committed |
| `Rounds.AppliesEverything` | raft/node.go:463-485 | applying leaves nothing committed unapplied, even when applied changes let the commit index rise |
| `RoundTheorems.MajorityRoundCommits` | raft/heartbeat.go:70-99 | a round in which a majority accepts and no reply is of a later term commits the leader's whole log, or as much as it waits for, in any order of replies and whichever calls fail; a leader alone has committed it already |
| `RoundTheorems.MajorityRoundAccepts` | raft/proposal.go:29-46 | a proposal whose first round reaches a majority succeeds, and so does one of a leader that is alone, without a round |
| `RoundOutcomes.RoundEndsInLaterTerm` | raft/heartbeat.go:81-84 | the first reply of a later term, unless the round has stopped before it, leaves a follower of exactly that term without vote, leader or progress, and with all that the earlier replies let it commit |
| `RoundOutcomes.LaterReplyEndsLeadership` | raft/heartbeat.go:70-84 | the same of the reply loop alone, for any requests sent |
| `RoundOutcomes.RoundEndsWhenCommitted` | raft/heartbeat.go:90-92 | a round that waits for an index ends with the success that commits it, whatever arrives afterwards |
| `RoundOutcomes.RoundStopsWhenCommitted` | raft/heartbeat.go:85-93 | the same of the reply loop alone |
| `RoundOutcomes.ProgressIsAsReplied` | raft/heartbeat.go:85-98 | in a round without a later term each peer's progress ends as its reply says: a success gives the last index sent and one more, a refusal one index back down to the snapshot, no reply nothing |
| `RoundOutcomes.AcceptingPeerHoldsLog` | raft/heartbeat.go:85-89 | a peer that accepts is then known to hold the leader's whole log |
| `RoundOutcomes.ProgressRepaired` | raft/heartbeat.go:116-137 | before a round every leader knows all its peers, with the progress it had if that was complete and from the end of its log otherwise |
| `RoundOutcomes.RoundNeverFails` | raft/heartbeat.go:44-102 | no round of a leader ends in an error of its own |
| `RoundOutcomes.UnknownPeerFailsRound` | raft/heartbeat.go:85-98 | a reply from a peer without progress ends the round with an error and with what the earlier replies did |
| `RoundOutcomes.AwaitedExactly` | raft/proposal.go:29-54 | waiting takes exactly as many rounds as it takes until the index is committed, the node no longer leads or no round is left, and succeeds if and only if the index is then committed |
| `RoundOutcomes.ProposalFailsExactly` | raft/proposal.go:29-54 | a proposal that appended fails only with its entry beyond the commit index, and only because the node no longer leads or all rounds were used |
| `RoundOutcomes.SomeRoundAccepts` | raft/proposal.go:29-54 | a proposal succeeds if any of its rounds reaches a majority and no reply up to then is of a later term |
| `Proposals.BuildRequests` | raft/heartbeat.go:49-59 | one request per peer, or an error if progress for a peer is missing |
| `Proposals.HandleReplies` | raft/heartbeat.go:70-101 | the reply loop, with its early exits, is the fold of the replies in order of arrival |
| `Proposals.ReplicateOnce` | raft/heartbeat.go:44-102 | a round on the node is the round of the abstract node |
| `Proposals.AwaitCommit` | raft/proposal.go:29-54 | the retry loop is the repetition of rounds until the index is committed, leadership ends or the deadline passes |
| `Proposals.Propose` | raft/proposal.go:13-55 | a proposal on the node is the proposal of the abstract node, with the entry and outcome it returns |
| `Proposals.ProposeAndApply` | client/http.go:228-255 | the write path applies everything committed after a proposal that succeeds and nothing otherwise; the store stays the fold of what is applied and then holds the write |
| `Proposals.HandleGet` | client/http.go:137-182 | a read is answered only after its no-op is committed and applied, with what the last write of the key among the applied entries left; an unanswered one changes no store |
| `Protocols.CountVotes` | raft/election.go:52-81 | the vote loop wins, falls short or steps down as its replies in order of arrival say |
| `Protocols.CountExact` | raft/election.go:52-81 | without a reply of a later term the count is won exactly when enough replies grant |
| `Protocols.PreVoteElection` | raft/election.go:83-137 | a pre-vote leaves the node as it was unless a reply carries a later term, and is lost by a node outside the cluster |
| `Protocols.StartElection` | raft/election.go:14-81 | an election is pre-vote, candidacy, vote count and promotion, with the state each way out leaves |
| `Protocols.ElectionNeedsMajorities` | raft/election.go:14-81 | an election ends with a leader of the next term only if majorities granted both rounds, and raises the term only after a won pre-vote or a later reply |
| `Elections.ElectionWonExactly` | raft/election.go:14-81 | an election is won if and only if the node is a member and a majority of its cluster, itself included, grants the pre-vote and then the vote, each before a reply of a later term arrives |
| `Elections.MajoritiesElect` | raft/election.go:14-81 | without replies of later terms, if and only if majorities grant both rounds |
| `Elections.WinnerLeads` | raft/election.go:179-191 | the winner leads the next term with its own vote, names itself leader, has progress for exactly its peers from the end of its log, and has committed all the rule lets it |
| `Elections.PreVoteOvertaken` | raft/election.go:124-127 | a later term heard before the pre-votes suffice leaves a follower of that term |
| `Elections.VoteOvertaken` | raft/election.go:64-67 | a later term heard before the votes suffice leaves a follower of that term |
| `Elections.PreVoteRefused` | raft/election.go:14-24 | a node refused the pre-vote, or no member, is as it was |
| `Elections.VoteRefused` | raft/election.go:26-81 | a node refused the vote is a candidate of the next term that voted for itself |
| `Elections.WonExactly` | raft/election.go:52-81 | a round of votes is won if and only if the votes suffice before a later term is heard |
| `Answers.PreVoteGrantedExactly` | raft/node.go:274-292 | a pre-vote is granted if and only if the request is of no earlier term, the node is a member that listens to the candidate, and the candidate's log is no staler than its own |
| `Answers.VoteGrantedExactly` | raft/node.go:233-272 | a vote is granted, and cast, if and only if a pre-vote would be and the node has not voted for another in that term |
| `Answers.VoteRequestHeeded` | raft/node.go:233-272 | a request of a later term from a candidate listened to makes the node follow in it; any other leaves all but the vote |
| `Answers.AppendMakesFollower` | raft/node.go:294-320 | an append of no earlier term from a node listened to makes the node its follower in that term, with its vote if the term is the same; any other changes nothing |
| `Answers.AppendAcceptedExactly` | raft/node.go:322-346 | it succeeds if and only if it starts at the beginning or at an entry the node holds; the node then holds every entry of it beyond the snapshot and has the commit index it announces, or its last index if that is less |
| `Answers.ListensToMembersAfterChange` | raft/node.go:603-640 | once a change is applied a node listens to exactly the members it then has |
| `Protocols.TurnInStep` | cmd/node/main.go:213-226 | after a turn nothing committed is unapplied, the store is the fold of what is applied, fewer than 64 entries lie beyond the snapshot unless the turn failed, and a new snapshot is the store of exactly the entries it replaces |
| `Protocols.ApplyTurn` | cmd/node/main.go:213-226 | a turn on the node is that turn, failing exactly if the applied entry has no term |
| `Protocols.ReloadRebuilds` | raft/node.go:37-73 | loading the saved image rebuilds the node, less what every restart resets, if and only if its peer list was not empty or the startup list is empty |
| `Protocols.Reload` | raft/node.go:531-546 | at any moment between operations the store holds enough to rebuild term, vote, log, snapshot and snapshot position; the members too if they were saved, unless the saved list is empty and the startup list is not |
| `Protocols.RestartNode` | cmd/node/main.go:94-102 | restarting loads the node, then the stored map, then the snapshot over it if there is one |
| `RaftNodes.RaftNode.constructor` | raft/node.go:37-73 | the loaded node stands for the saved state after its snapshot |
| `RaftNodes.RaftNode.LastLogIndex` | raft/node.go:689-694 | the last index of the whole log, although only a suffix is kept |
| `RaftNodes.RaftNode.LastLogTerm` | raft/node.go:696-701 | the last term of the whole log, although only a suffix is kept |
| `RaftNodes.RaftNode.LogTermAt` | raft/node.go:707-718 | the term at an index of the whole log, zero before the snapshot and past the end |
| `RaftNodes.RaftNode.EntriesFrom` | raft/node.go:720-728 | the rest of the whole log from an index, or from after the snapshot if the index is not beyond it |
| `RaftNodes.RaftNode.BuildAppendEntries` | raft/node.go:373-394 | the request of the abstract node for a known peer, an error for any other |
| `RaftNodes.RaftNode.BecomeCandidate` | raft/node.go:202-213 | the next term, a saved vote for itself, no leader and no progress |
| `RaftNodes.RaftNode.StepDownForHigherTerm` | raft/election.go:156-171 | a later term, and only a later one, is entered as a follower without a vote, and saved |
| `RaftNodes.RaftNode.RequestVote` | raft/node.go:233-272 | the vote, term and reply of the abstract node, with every change saved |
| `RaftNodes.RaftNode.PreVote` | raft/node.go:274-292 | the reply of the abstract node, with nothing changed |
| `RaftNodes.RaftNode.PromoteCandidate` | raft/election.go:179-191 | a member still candidate of the term becomes leader with fresh progress; any other node is unchanged |
| `RaftNodes.RaftNode.AdvanceCommit` | raft/node.go:579-601 | the nested loops compute the commit rule of the abstract node |
| `RaftNodes.RaftNode.CountHolders` | raft/node.go:589-594 | the inner loop counts the peers whose match index reaches the index |
| `RaftNodes.RaftNode.InitLeaderProgress` | raft/node.go:568-577 | progress for exactly the peers, from the end of the log, and a first look at the commit rule |
| `RaftNodes.RaftNode.FindCut` | raft/node.go:507-527 | the scan over the retained suffix finds the first difference of the whole log beyond the snapshot, and stops at once beyond the end of the log |
| `RaftNodes.RaftNode.AppendEntriesToLog` | raft/node.go:500-529 | the early-exit loop on the retained suffix equals placing the request in the whole log, and refuses exactly an unmatched previous entry |
| `RaftNodes.RaftNode.PlaceEntries` | raft/node.go:507-529 | the part after the check, also for requests beyond the end of the log |
| `RaftNodes.RaftNode.TakeEntries` | raft/node.go:322-338 | the log with the entries placed, and the commit index raised to what the request announces or to the last index if that is less |
| `RaftNodes.RaftNode.ReplaceFrom` | raft/node.go:517-518 | cutting the retained suffix and appending renumbered entries splices the whole log at that length |
| `RaftNodes.RaftNode.FollowLeader` | raft/node.go:306-320 | the term, vote, role, leader and progress of the abstract node on a request from a current leader, and whether anything saved has changed |
| `RaftNodes.RaftNode.HandleAppendEntries` | raft/node.go:294-346 | log, commit index, term, leader and reply of the abstract node for every request, with every change saved |
| `RaftNodes.RaftNode.AppendLocal` | raft/node.go:348-371 | the new entry at the end of the log, or nothing while a membership change is pending, and a saved log |
| `RaftNodes.RaftNode.HasPendingMembershipChange` | raft/node.go:655-665 | the scan of the retained suffix decides whether any entry of the whole log is a membership change not applied |
| `RaftNodes.RaftNode.RecordReplicationSuccess` | raft/node.go:396-408 | match and next index of a known peer, then the commit rule; an unknown peer is an error |
| `RaftNodes.RaftNode.RecordReplicationFailure` | raft/node.go:410-425 | next index of a known peer one back, never to the snapshot |
| `RaftNodes.RaftNode.Compact` | raft/node.go:434-461 | the whole log is unchanged while its applied part is discarded; fails exactly when the applied entry is not in the log |
| `RaftNodes.RaftNode.EnsureLeaderProgress` | raft/heartbeat.go:116-137 | progress is rebuilt exactly at a leader that lacks it for some peer |
| `RaftNodes.RaftNode.ApplyMembershipChange` | raft/node.go:603-640 | the members, role, vote and progress of the abstract node after the change |
| `RaftNodes.RaftNode.AddMember` | raft/node.go:607-616 | the new member and, at a leader, its progress from the end of the log |
| `RaftNodes.RaftNode.RemoveMember` | raft/node.go:617-633 | the member and its progress are gone; a removed self follows no one and has no vote |
| `RaftNodes.RaftNode.NextCommittedEntry` | raft/node.go:548-557 | the entry of the whole log after the applied one, if it is committed and retained |
| `RaftNodes.RaftNode.ApplyEntry` | raft/node.go:463-485 | a membership entry changes the node and is saved, any other changes the store |
| `RaftNodes.RaftNode.ApplyCommitted` | raft/node.go:463-485 | the loop applies every committed entry once, in order |
| `RaftNodes.NormalizeEntries` | raft/node.go:737-745 | the entries with consecutive indices and nothing else changed |
| `RaftNodes.DropPeer` | raft/node.go:769-777 | the list without the peer, in order |
| `KvStateMachines.KvStateMachine.Open` | store/kv_state_machine.go:23-43 | memory equals the stored bucket after loading |
| `KvStateMachines.KvStateMachine.Apply` | store/kv_state_machine.go:45-69 | memory and bucket both move by the command and stay equal; a membership entry is refused |
| `KvStateMachines.KvStateMachine.Snapshot` | store/kv_state_machine.go:82-91 | the snapshot is the whole map |
| `KvStateMachines.KvStateMachine.RestoreSnapshot` | store/kv_state_machine.go:93-118 | memory and bucket both become the snapshot; an absent one restores nothing |
| `KvStateMachines.CopyEntries` | store/kv_state_machine.go:134-150 | the entry-by-entry copy is the map |

## Left out

- Cluster-wide safety while the membership changes: the code has no joint consensus; changes are covered for one node.
- Liveness beyond one exchange with a follower and one majority round: timers, random timeouts and leader forwarding only decide when a step happens.
- Followers behind a compacted leader log: there is no InstallSnapshot RPC; `CatchUp.CatchUpExact` says exactly when such a follower is stuck.
- gRPC, protobuf, HTTP routing, status codes and JSON encoding: the network is a set of messages and commands are one datatype; an undecodable command and a command with an empty key are not part of this model.
- Failed and partial saves, and bbolt itself: a save is one assignment of the saved image; the snapshot is the map, not its bytes.
- `uint64` overflow: terms and indices are natural numbers.
- `BecomeFollower`, `BecomeLeader`, `SetVotedFor` and the public `ApplyMembershipChange` of `raft/node.go`: only tests call them.
- Metrics, peer-address parsing, Docker and scripts: no hard property.
- RaftNodes.RaftNode: the fields of the Go struct are grouped in four records of the fields that change together; `compacted` is ghost.
- Protocols.StartElection: runs without other procedures on the node in between; interleavings, also those between candidacy and the vote request, are steps of the cluster.
- Protocols.Reload: does not say which members return after a start from an empty saved list, because the startup list of the earlier process is not known to the later one.
- Protocols.CountVotes: leaves out the exit on no longer being candidate of the term (`raft/election.go:68-70`), because nothing else acts on the node during the count; in the cluster a promotion looks at role and term.
- Protocols.PreVoteElection: runs without other procedures on the node in between; interleavings are steps of the cluster.
- Protocols.ApplyTurn: takes the snapshot and compacts without an apply in between, as the assumptions say; `KvStore.SnapshotRestoresExactly` says what an apply in between does.
- RaftNodes.RaftNode.ApplyCommitted: reads, applies and marks an entry without another call in between; `ApplyRaces` has the three steps and the interleavings.
- Proposals.Propose: runs without other procedures on the node in between; interleavings are events of the service. The retry deadline is the number of rounds given.
- Proposals.ReplicateOnce: runs without other procedures on the node in between; interleavings are steps of the cluster.
- Proposals.AwaitCommit: runs without other procedures on the node in between; interleavings are steps of the cluster.
- Proposals.ProposeAndApply: runs without other procedures on the node in between; interleavings are events of the service.
- Proposals.HandleGet: runs without other procedures on the node in between; interleavings are events of the service, where `Linearizability.Linearizable` covers them.
- Proposals.HandleReplies: a reply that never arrives is left out of the arrivals; a cancelled context is an end of the arrivals.
- Rounds.ProposalKeeps: does not say that the entry of a successful proposal stays, which holds under the condition of `Linearizability.Linearizable`.
- CatchUp.CatchUpExact: nothing else happens at either node between its requests; `CatchUp.RefusalsAreBounded` gives the bound when it does.
- Linearizability.Linearizable: says nothing of the value of a read that was not confirmed; `Linearizability.ReadTimelyExactly` does.
