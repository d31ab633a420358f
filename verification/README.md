# A verified model of the key-value store

The store is a replicated key-value service: a Raft node (`pkg/raft`) orders commands, and a durable
engine (`pkg/storage`) executes them. This project models both in Dafny and proves what they promise
over whole runs. It has no dependencies; `dafny verify dfyconfig.toml` checks all of it.

## How it is laid out

**Raft.** `RaftNode.dfy` holds the node's state and what each lock region decides, as functions.
`Cluster.dfy` composes any number of nodes, each with a separate durable copy, over a growing set of
messages. A message may be delivered late, twice, out of order or never. Every lock region is a step
of its own, and so are a failed `Save` (written or not), quorum-loss step-down, crash and reload.
`ClusterInvariant.dfy` has the inductive invariant, built around a ghost history: who won each term,
and the log of each term. `ClusterSteps.dfy` shows that each step keeps it and `ClusterSafety.dfy` draws
the conclusions. `VoteReset.dfy` gives the exact limit of those conclusions.

`Merge.dfy`, `Commit.dfy`, `Leader.dfy`, `Replication.dfy` and `Compaction.dfy` treat log merging,
commitment, replication bookkeeping, one whole leadership, and log compaction. `ClusterCommit.dfy` carries
commitment over to one tenure in the cluster. Five files carry it across tenures, to leader completeness and
state-machine safety: `Chronicle.dfy` records the log behind every campaign and vote, `Completeness.dfy` has
the argument that every winner holds what a majority vouches for, `Stewardship.dfy` and `Upkeep.dfy` show
what every step keeps, and `StateMachine.dfy` has the theorems. `Durability.dfy` and `Patience.dfy` do the
same for what is on disk. `Runs.dfy`, `Leftovers.dfy`, `WarrantLimits.dfy` and `UnsavedRuns.dfy` build
concrete cluster runs in which the code falls short. `TermRules.dfy` and `OneCall.dfy`
have what holds in every run, clean or not: terms, answers, and one request per peer at a time.

`ApplyLoop.dfy` is the apply loop against the rest of the node. `NodeObject.dfy` and `ApplyObject.dfy` hold
the same code as classes whose methods update fields in place, each proved against the functions above.

**Storage.** `Store.dfy` is the engine's meaning as a function on a map of items with deadlines, and
`StoreLaws.dfy` says what that means to a reader: what later reads answer after each operation.
`Expiry.dfy`, `Scan.dfy` and `Glob.dfy` prove that purging cannot be observed, that paging is exact, and
when the greedy matcher is right. `Codec.dfy` and `Framing.dfy` are the plain and the encrypted log
format, byte by byte, and `WireFormat.dfy` gives both in literal numbers. `Replay.dfy`, `LaterClock.dfy`,
`Disk.dfy` and `Vault.dfy` prove crash recovery, over a plain and over an encrypted log; `Recovery.dfy` draws
the end-to-end conclusion. `MemObject.dfy` and `DiskObject.dfy` hold the in-place classes: the memory
store, replay, the group-commit batcher and compaction.

## Assumptions

- A node's peers are distinct, do not include the node, and there is at least one (`Cluster.PeersOf`).
- A saved raft state is replaced atomically. A failed save has either replaced it or not.
- In the cluster model logs are not compacted. Compaction is covered by the one-node refinement
  `Compaction.CompactionIsTransparent`.
- Clock readings are parameters. One request reads the clock once, except `Get`, whose second phase may
  read a later time. Statements about replay compare states at one clock reading unless they name two.
- Strings are sequences of bytes, and the order on keys is byte order.
- Go's `int` does not overflow in terms and log indexes. The 64-bit bounds of counters and deadlines are modelled.
- `Decrypt` undoes `Encrypt`, and a sealed record is 28 bytes longer than the plain one.
- Stores are compared by their live entries where purging is involved, because purging is lazy.

## Where the code falls short

Each of these has a concrete input or run as a lemma. Next to it stands the condition under which the code is
right: exact where it says "if and only if", and otherwise one that is enough.

- The last branch of `startElection` clears `votedFor` in whatever term the node has reached. A vote for
  another node is forgotten exactly when that branch runs on a node that voted meanwhile
  (`VoteReset.VoteForgottenExactlyByReset`). One run then elects two leaders of one term
  (`VoteReset.UncleanRunBreaksSafety`). Runs without such a reset are called clean. A run is clean when no
  vote request is handled during a node's own election (`VoteReset.UndisturbedRunIsClean`).
- Replication state survives into later leaderships. In one clean run without crashes or failed saves, a
  leader commits entries that no other machine holds (`Leftovers.StaleMatchCommitsUnheldEntries`). Within one
  leadership, match indexes stay truthful on every run if and only if each is warranted when it begins: it is
  zero, or the peer is in a later term, or the peer is in the leader's term and holds the prefix
  (`Replication.MatchIndexIsTruthful`). The runs meant there are bounded by log matching alone: a peer may cut
  its log at any time, whether or not a request to that effect was ever sent.
- A short append request cuts matching entries. In one clean run a late copy of an earlier request takes
  every committed entry from both followers and leaves their commit indexes beyond their logs
  (`Leftovers.CommitIndexLeftBeyondLog`). Requests of a leader whose commit index is within its log never
  lower one, and leave one beyond the log if and only if they end before it
  (`MergeExactness.BuiltRequestCommit`).
- Leader completeness and state-machine safety are therefore not given. The run above goes on to a leader
  without the committed entries and a commit index that falls (`Leftovers.CommitIndexFalls`). Both hold
  (`StateMachine.LeaderCompleteness`, `StateMachine.StateMachineSafety`) in every orderly run: a clean run
  without crashes in which every append request is delivered while its sender still leads and waits for it,
  and nobody starts to lead with a match index beyond its log. First leaderships meet the last condition.
  Warranted match indexes do too (`Completeness.WarrantedMatchesWithin`), except about a peer that has left
  for a later term, and that exception breaks leader completeness (`WarrantLimits.WarrantedIsNotEnough`).
- An append can be acknowledged before it is on disk. `HandleAppendEntries` unlocks before it saves, and a
  second copy handled in between finds nothing to change. In one such run, in which no save fails, a leader
  commits an entry that is on no other disk, and a crash leaves it with no other machine
  (`UnsavedRuns.AcknowledgedBeforeSaved`). In every reachable state, a success reply leaves the machine's log
  on disk if and only if it follows a successful save or the log was there already
  (`Durability.SuccessIsSavedExactly`).
- A heartbeat can carry a proposal before `propose` has saved it, and the leader counts itself. In one run an
  entry is committed that is on one disk of three (`UnsavedRuns.CommittedBeforeSaved`). In an orderly run in
  which requests are handled and sent only while the machine's log is on its disk, everything committed is on
  the disks of a majority from then on (`Durability.CommittedIsOnMajorityDisks`). It is enough that no save
  fails, no append is handled while an earlier one waits for its save, and every proposal is saved before
  anything else happens (`Patience.PatientRunIsCareful`).
- The apply loop takes a missing entry for a compacted one. An index is reported empty and never applied if and
  only if nothing was read for it (`ApplyLoop.AppliesWhatItReads`), which happens if and only if the log has
  been cut below it (`ApplyLoop.PassedOverExactlyWhenCut`).
- `matchGlob` treats `*` in the subject as a literal first. It is right for every pattern if and only if
  no byte of the subject but the last is a star (`Glob.MatchGlobCorrectExactly`). The key rule excludes stars.
- A crash between saving the snapshot and truncating the log replays the log twice. If every incremented key
  is also reset, this is harmless if and only if no key is at risk in the sense of `Replay.AtRisk`
  (`Disk.CrashInCompactionWindow`). An `Incr` without a reset counts twice (`Replay.IncrReplaysTwice`).
- Replay re-evaluates records by the clock of the restart. A key whose deadline was renewed in time can be
  gone after a restart (`LaterClock.RenewedKeyIsLost`). A key without an `Incr` since its last reset is rebuilt
  if and only if memory no longer holds it or it was not changed, since that reset, under a deadline that has
  passed by then (`LaterClock.KeyLaterReplayExactly`). With such an `Incr`, it is rebuilt while no deadline has
  passed (`LaterClock.ReplayByLaterClock`), and need not be afterwards (`LaterClock.LaterReplayDiffers`).
- A record with a field over 2^20 bytes is logged and acknowledged but can never be replayed, nor can
  anything after it (`Codec.LogReadsBackExactly`). Encrypted, the same goes for a CAS whose fields exceed
  2^21 + 23 bytes together (`Framing.OversizeSealedRecordIsRefused`).
- An encrypted log cut in or right behind a length header is accepted but not repaired. Once another record
  is appended, it is accepted if and only if nothing was torn (`Framing.AppendAfterTornHeader`). So a store
  opens again after a stop if and only if nothing was acknowledged behind a tear
  (`Vault.SealedReopensExactly`).

Comments in the source that call apply and replay deterministic hold only up to the clock reading; the
model follows the code.

## Model

| member | source | states |
|---|---|---|
| `ClusterSafety.ElectionSafety` | pkg/raft/election.go:69-134 | In every state a clean run reaches, two leaders of the same term are the same node, across crashes, failed saves, step-downs and any message behaviour |
| `ClusterSafety.LogMatching` | pkg/raft/follower.go:11-55 | In every state a clean run reaches, any two logs, in memory or on disk, with equal terms at an index are identical up to that index |
| `ClusterSafety.LogTermsAscend` | pkg/raft/leader.go:124-162 | In every such state, terms never fall along any log and never exceed the holder's term |
| `ClusterSafety.LeaderAgreesWithAll` | pkg/raft/follower.go:27-55 | In every such state, every log matches the leader's, and entries of the leader's term beyond its log do not exist: the premise a leadership starts from |
| `ClusterSafety.EarlierWinnerGranted` | pkg/raft/election.go:90-130 | Quorum intersection: if a term is won again, the earlier winner itself voted for the new one |
| `ClusterSafety.TermStillOpen` | pkg/raft/election.go:55-61 | A term in which an entry was created is never won again, and no term is won three times, although leaders step down inside their own term |
| `ClusterSafety.NoRivalLeads` | pkg/raft/election.go:55-61 | Nobody else leads a term at the moment it is won |
| `ClusterSafety.LeadsExactlyByMajority` | pkg/raft/election.go:127-133 | In every state a clean run reaches, a candidate leads at the end of its election if and only if it is still a candidate of the campaign's term and more than half of the machines, itself included, voted for it |
| `ClusterSafety.WonExactlyByMajority` | pkg/raft/election.go:127-133 | The same, in any state that satisfies the invariant |
| `RaftNode.MajorityIsLeast` | pkg/raft/election.go:174-178 | The quorum is the least number of machines that is more than half of all of them |
| `ClusterSafety.StepKeepsInv` | pkg/raft/node.go:40-134 | Every clean step of the cluster keeps the invariant, with the history it records |
| `ClusterSafety.VoteGoesToTheFullerLog` | pkg/raft/node.go:40-74 | In every state a clean run reaches, a machine asked in a newer term grants its vote if and only if the candidate's log ends in a later term or contains the machine's own log |
| `RaftNode.VoteDecision` | pkg/raft/node.go:40-74 | A vote is granted if and only if the request is not from an earlier term, the node is free to vote in that term, and the last entry of the candidate's log is at least as fresh; what else changes follows from the terms alone |
| `RaftNode.AppendDecision` | pkg/raft/node.go:86-134 | An append succeeds if and only if it is not from an earlier term and the entry before its first is there with that term; a sender that is not outdated is followed, and a vote survives only in a follower of the same term |
| `TermRules.LaterTermIsAdopted` | pkg/raft/node.go:40-134 | In any state, a machine that reads a later term in a request or a reply is in that term afterwards, as a follower that has voted for nobody but the candidate it just granted; an earlier term changes no term; a candidate's election ends there |
| `TermRules.TermsNeverFall` | pkg/raft/persistence.go:183-228 | In every run, clean or not, a machine's durable term never falls and never exceeds the one in memory, which falls only in a crash of that machine |
| `TermRules.AnswersAreTruthful` | pkg/raft/node.go:40-134 | In any state, a refusal leaves at once with the machine's term; what has to be saved first is answered in a step of its own, with success if and only if the save went through or nothing was left to save |
| `ClusterSteps.ReceiveVoteKeeps` | pkg/raft/node.go:40-74 | Deciding a vote keeps a machine's promises: one vote per term, recorded before it is answered |
| `ClusterSteps.AnswerVoteKeeps` | pkg/raft/node.go:62-74 | A reply carries a grant only once the vote is on disk, whatever the save did |
| `ClusterSteps.SaveCampaignKeeps` | pkg/raft/election.go:69-88 | A candidate asks for votes only once its term and self vote are on disk |
| `ClusterSteps.LostElectionKeeps` | pkg/raft/election.go:127-133 | Losing, or finding that the term moved on, keeps the invariant when no vote for another node is thrown away |
| `ClusterSteps.QuorumLossKeeps` | pkg/raft/election.go:55-61 | Stepping down inside one's own term, which clears the node's own vote, keeps the invariant |
| `ClusterSteps.CrashKeeps` | pkg/raft/persistence.go:183-206 | Reloading after a crash keeps every promise already sent |
| `ClusterSteps.AcceptedLogIsClaimed` | pkg/raft/node.go:86-134 | An accepted request leaves exactly the log it speaks for: the sender's prefix up to the end of the request |
| `ClusterSteps.BuiltRequestOk` | pkg/raft/leader.go:254-278 | A request built from a log of the history speaks for that log |
| `VoteReset.VoteForgottenExactlyByReset` | pkg/raft/election.go:127-133 | In every reachable state a step that is not a crash forgets a vote for another node if and only if it is the final reset of an election on a node that voted meanwhile |
| `VoteReset.UndisturbedRunIsClean` | pkg/raft/election.go:69-134 | Every run in which no vote request is handled during the node's own election is clean |
| `VoteReset.UncleanRunBreaksSafety` | pkg/raft/types.go:251-257 | A run from the initial state, in which no machine crashes, that ends with two leaders of term 2 and logs that disagree at an index of equal term |
| `MergeExactness.AcceptedMergeIsExact` | pkg/raft/follower.go:27-55 | For any compaction base, after an accepted request the last index is max(prevLogIndex + len(entries), base), and given log matching every retained entry is the sender's |
| `MergeExactness.AcceptedMergeLength` | pkg/raft/follower.go:27-55 | The length half, for every accepted request, whatever the sender's log looks like |
| `MergeExactness.UnreportedMergeKeepsLog` | pkg/raft/follower.go:27-55 | A merge that reports no change left the log alone, so skipping the save is right |
| `MergeExactness.MergeReportedExactly` | pkg/raft/follower.go:27-55 | A merge reports a change if and only if the log changes, except that a request ending before the base of an empty log is reported for nothing |
| `MergeExactness.AcceptedCommit` | pkg/raft/node.go:108-121 | After an accepted append with a newer commit index, commitIndex is the smaller of the leader's and the last index; otherwise it stays. It falls if and only if a short request with a newer commit index cut the log below it; if it was within the log it still is, except after such a cut with nothing newer to commit |
| `MergeExactness.BuiltRequestCommit` | pkg/raft/leader.go:254-278 | A request built by a leader whose commit index is within its log takes a follower's commit index to the greater of the two, and leaves it beyond the follower's log if and only if the request ends before it |
| `RaftNode.TallyCountsGrants` | pkg/raft/election.go:108-125 | The tally elects if and only if some first replies make up a majority with none among them outranking the candidate |
| `RaftNode.CarriedByMajority` | pkg/raft/election.go:108-125 | Carrying the quorum means having the votes of more than half of the machines |
| `RaftNode.TallyFindsFirstAbove` | pkg/raft/election.go:108-125 | If some reply is from a later term, the tally ends with the term of the first such reply, or a majority was counted |
| `Commit.ThresholdIsMajorityIndex` | pkg/raft/commit.go:13-41 | More than half of the match indexes have reached an index if and only if it is at most the value picked from the sorted match indexes |
| `Commit.MaybeCommitIsGreatest` | pkg/raft/commit.go:13-41 | commitIndex moves to the greatest current-term index above it that more than half of the machines have reached, or stays when there is none; so it never moves back |
| `Commit.SortIntsSorts` | pkg/raft/commit.go:20-30 | The sorted vector is ascending and a permutation of the match indexes |
| `LeaderLogic.ReachersCounted` | pkg/raft/commit.go:13-41 | Counting match indexes counts distinct peers |
| `LeaderLogic.ReplyShape` | pkg/raft/leader.go:290-335 | A reply lands and then is ignored, rewinds or acknowledges; it never touches the leader's log, and a new commit index is within the log and one more than half of the machines have reached |
| `LeaderLogic.ReplyMoves` | pkg/raft/leader.go:290-335 | A later term makes the leader step down in it, an earlier one is ignored; a rejection takes the next index back by the step, not below 1, and doubles the step up to 64, where it gives up; an acknowledgement moves match and next index forward only, and the step starts over; other peers' entries stay |
| `OneCall.OneCallAtATime` | pkg/raft/leader.go:241-290 | In every reachable state of any run, clean or not, a leader may send to a peer if and only if no request to that peer waits for its answer |
| `OneCall.StepKeepsFlags` | pkg/raft/leader.go:241-335 | Every step of the cluster keeps the tie between in-flight flags and outstanding calls |
| `Replication.MatchIndexIsTruthful` | pkg/raft/leader.go:241-335 | Whatever bookkeeping a leader comes by, every peer still in its term holds its log up to the match index, on every run of the leadership, if and only if each match index is warranted when it begins; fresh bookkeeping always is |
| `Replication.CommittedIsHeldByMajority` | pkg/raft/commit.go:13-41 | From warranted match indexes, every index committed in the leadership is held with the same prefix by a majority, except peers that have since moved to a later term |
| `Replication.UnwarrantedIsExposed` | pkg/raft/leader.go:31-45 | From an unwarranted match index, a run to a state in which it is false, the peer doing what log matching alone allows |
| `ClusterCommit.ClusterCommitsWhatAMajorityHolds` | pkg/raft/commit.go:13-41 | From the moment a machine wins a term in a clean run of the cluster, with warranted match indexes, and as long as it leads without crashes or late requests of its term, whatever it commits is held with the same prefix by a majority of the cluster |
| `ClusterCommit.FirstTenureIsWarranted` | pkg/raft/leader.go:31-45 | A machine that has led nothing before starts with warranted match indexes |
| `ClusterCommit.StepKeepsLeadInv` | pkg/raft/leader.go:241-335 | A step of any machine that is no crash and delivers no request the leader has given up on, and after which the leader still leads, keeps the tie between the leader's bookkeeping, its outstanding calls, acknowledgements under way and the peers' logs |
| `Chronicle.StepKeepsNotes` | pkg/raft/election.go:69-134 | Every clean step without a crash keeps the record of the log behind each campaign and each vote: whoever was voted for campaigned with a log at least as fresh as the voter's, and a term's log grows out of its last winner's |
| `Completeness.FresherHolds` | pkg/raft/node.go:51-53 | A log that is at least as fresh as one holding an entry holds it too, unless it ends with entries of a winner crowned without it |
| `Completeness.EveryWinnerHolds` | pkg/raft/election.go:90-130 | Once a majority vouches for an entry of its creator's term, every winner of every later term was crowned with the log up to it |
| `Completeness.FreshMatchesWithin` | pkg/raft/leader.go:31-45 | A machine that has led nothing before has no match index beyond its log |
| `Completeness.WarrantedMatchesWithin` | pkg/raft/leader.go:31-45 | Warranted match indexes are within the leader's log, unless one of them is about a peer in a later term |
| `Stewardship.PromptTake` | pkg/raft/node.go:86-134 | Accepting a request while its sender leads and waits for it leaves the receiver with exactly the sender's log up to the end of the request, all the sender was crowned with included |
| `Stewardship.StepKeepsWatch` | pkg/raft/node.go:40-134 | Every orderly step keeps this: whoever vouches for an entry holds it in its log and in every log it campaigns or votes with later, unless a winner was crowned without it |
| `Upkeep.StepKeepsLeads` | pkg/raft/leader.go:241-335 | Every orderly step keeps every leader's books sound: calls carry its log, match indexes beyond what it was crowned with are backed by acknowledgements, and no follower in its term has committed beyond what it is about to be sent |
| `StateMachine.LeaderSettles` | pkg/raft/commit.go:13-41 | What a leader's match indexes allow it to commit, a majority vouches for |
| `StateMachine.StepKeepsGood` | pkg/raft/node.go:40-134 | Every orderly step keeps the whole invariant, in which every commit index of every machine is within its log and backed by a majority |
| `StateMachine.LeaderCompleteness` | pkg/raft/commit.go:13-41 | In every orderly run, every later leader whose term is at least that of a machine holds, as a prefix of its log, everything that machine had committed |
| `StateMachine.StateMachineSafety` | pkg/raft/apply.go:117-175 | In every orderly run, what any machine has committed at one point and what any machine has committed at any later point agree as far as both reach |
| `StateMachine.CommittedStaysWithMajority` | pkg/raft/commit.go:13-41 | In every orderly run, what any machine has committed begins the logs of a majority at every later point |
| `WarrantLimits.WarrantedIsNotEnough` | pkg/raft/leader.go:31-45 | A clean run without crashes or failed saves, in which every request is delivered promptly and every winner's match indexes are warranted, to a leader of term 7 whose log is shorter than what the leader of term 5 has committed |
| `Durability.SuccessIsSavedExactly` | pkg/raft/node.go:121-134 | In every reachable state, a step that sends a success reply to an append leaves the machine's log on its disk if and only if it is the answer after a successful save, or the log was on disk already, as it is when nothing is dirty |
| `Durability.StepKeepsOnDisk` | pkg/raft/node.go:86-134 | Every careful step keeps this: what a machine has sent as a leader, or acknowledged, is on its disk, unless a winner was crowned without it |
| `Durability.CommittedIsOnMajorityDisks` | pkg/raft/leader.go:147-156 | In every careful run, orderly and with requests handled and sent only while the machine's log is on its disk, what any machine has committed begins the disks of a majority at every later point |
| `Patience.PatientRunIsCareful` | pkg/raft/leader.go:147-156 | An orderly run is careful if no save fails, no append is handled while an earlier one of that machine waits for its save, and every proposal is saved before anything else happens |
| `Patience.PatientCommitsAreStored` | pkg/raft/node.go:121-134 | What any machine has committed at the end of such a run is on the disks of a majority |
| `UnsavedRuns.AcknowledgedBeforeSaved` | pkg/raft/node.go:121-134 | A clean run without crashes or failed saves, with prompt requests and warranted match indexes, to a leader that has committed an entry which is on no other disk, and with a crash of one follower held by no other machine |
| `UnsavedRuns.CommittedBeforeSaved` | pkg/raft/leader.go:124-162 | Such a run in which moreover no append is handled while one waits for its save, to a committed entry that is on one disk of three |
| `Leftovers.StaleMatchCommitsUnheldEntries` | pkg/raft/leader.go:31-45 | A clean run from the initial state, without crashes or failed saves, to a leader with commitIndex 2 while no other machine holds an entry in memory or on disk |
| `Leftovers.StaleLeaderIsUnwarranted` | pkg/raft/leader.go:31-45 | In a state that run passes through, a leadership begins with an unwarranted match index |
| `Leftovers.CommitIndexLeftBeyondLog` | pkg/raft/follower.go:30-37 | A clean run, without crashes or failed saves, in which a late copy of an earlier request empties both followers' logs and leaves their commit indexes at 2 and 1 |
| `Leftovers.CommitIndexFalls` | pkg/raft/node.go:112-121 | A clean run to a leader of term 2 without the entries committed in term 1, whose heartbeat takes a follower's commit index from 1 to 0 |
| `NodeObject.Node.constructor` | pkg/raft/persistence.go:183-206 | A node restored from its store has exactly the durable term, vote, log and base, follows nobody, and counts the compacted prefix, and nothing else, as committed and applied; memory and disk agree |
| `NodeObject.Node.Persist` | pkg/raft/persistence.go:211-228 | The store is written only when something changed; success clears the flag; the three outcomes of a save |
| `NodeObject.Node.HandleRequestVote` | pkg/raft/node.go:40-74 | The in-place handler computes the vote decision, the reply carries the greater of the two terms, and a granted vote is on disk by the time the reply leaves |
| `NodeObject.Node.MergeEntries` | pkg/raft/follower.go:27-55 | The loop that cuts and extends the log in place computes the merge function, and reports a change exactly as it does |
| `NodeObject.Node.HandleAppendEntries` | pkg/raft/node.go:86-134 | The in-place handler, undisturbed, computes the append decision, and an accepted change is on disk by the time it is acknowledged |
| `NodeObject.Node.AcceptEntries` | pkg/raft/node.go:108-134 | The accepting branch in memory: merged log and dirty flag; commitIndex becomes the smaller of the leader's and the last index if the leader's is newer; there is something to save exactly if the log or the commit index moved, or an empty log was cut |
| `NodeObject.Node.CountVotes` | pkg/raft/election.go:108-125 | The loop over the replies computes the tally |
| `NodeObject.Node.StartElection` | pkg/raft/election.go:69-134 | The node leads if and only if its term and self vote were saved and some first replies, none from a later term, give it more than half of the machines, whatever becomes of the save after being outranked; a leader's term and self vote are on disk; otherwise it follows nobody, in the term of the first reply above its own if there is one |
| `NodeObject.Node.Propose` | pkg/raft/leader.go:124-162 | A client hears success only once the entry is on the leader's disk; a non-leader refuses and changes nothing |
| `NodeObject.Node.CompactLog` | pkg/raft/snapshot.go:47-68 | The in-place re-slicing computes the compaction function: the base becomes the index if that is higher, exactly the entries up to it go and every later one keeps its place, commitIndex and lastApplied are lifted to it, and the base term is that of the entry there |
| `NodeObject.Node.EnsureRepl` | pkg/raft/leader.go:31-45 | Replication state is built on first use, every peer's next index one past the last index and everything else empty, and otherwise left alone |
| `NodeObject.Node.MatchVector` | pkg/raft/commit.go:18-24 | The loop collects the leader's last index and each peer's match index in order |
| `NodeObject.Node.MaybeCommit` | pkg/raft/commit.go:13-41 | The in-place method computes the commit function and changes nothing else |
| `NodeObject.MatchingPeerAnswers` | pkg/raft/node.go:86-134 | A peer with a matching log accepts a request carrying the leader's tail if and only if the previous entry matches, and then its log is the leader's |
| `NodeObject.Node.Exchange` | pkg/raft/leader.go:241-290 | One delivered request: success means the peer's log is now the leader's |
| `NodeObject.Node.OnReject` | pkg/raft/leader.go:302-321 | The next index goes back by the step, not below 1; a step below 64 doubles; at 64 or more it gives up |
| `NodeObject.Node.OnAck` | pkg/raft/leader.go:323-334 | Match and next index move forward only, the step starts over, and the commit function is applied |
| `NodeObject.Node.Round` | pkg/raft/leader.go:241-335 | One turn of the loop: acknowledged, with match and next index at the end of the log and the step starting over, or rejected, with the next index back by the step, not below 1, and the step doubled, or given up at 64 |
| `NodeObject.Node.ReplicateToPeer` | pkg/raft/leader.go:241-335 | One call sends at most 7 requests whose next indexes go back by a step that doubles each time, never below 1; it ends with equal logs, or gives up with nextIndex at least 64 lower or at 1 and the peer's log untouched; from nextIndex 1 it never gives up |
| `NodeObject.Node.CatchUp` | pkg/raft/leader.go:241-335 | Repeated calls end with the peer's log equal to the leader's after at most ceil((nextIndex - 1) / 64) + 1 of them |
| `Compaction.CompactionIsTransparent` | pkg/raft/snapshot.go:47-68 | Over any run with compactions of applied entries interleaved at will, a compacting node and its uncompacted twin give the same answers to votes, appends at or above the base, and requests to build, and stay related |
| `Compaction.OpsAgree` | pkg/raft/types.go:181-230 | One operation of that run: same answer, and the two states stay related |
| `ApplyLoop.AppliesWhatItReads` | pkg/raft/apply.go:117-175 | In every interleaving of the loop's lock regions with any change of the log or the commit index and any compaction of applied entries, the store is the fold of the commands that were read, in order; exactly the finished indexes are reported, each with its own outcome; an index is reported empty and never applied if and only if nothing was read for it |
| `ApplyLoop.PassedOverExactlyWhenCut` | pkg/raft/apply.go:152-162 | In every reachable state, nothing is read for the next index if and only if the log is too short to hold it |
| `ApplyLoop.AppliesOnceInOrder` | pkg/raft/apply.go:117-175 | As long as committed entries stay in the log, index i runs entry i of the log, and the store is the fold of entries 1..lastApplied (one more between store write and index bump), each reported with its own outcome |
| `ApplyObject.ApplyTracker.WaitIndex` | pkg/raft/apply.go:42-48 | Hands out a new open channel for the index and keeps every open channel registered |
| `ApplyObject.ApplyTracker.Result` | pkg/raft/apply.go:52-60 | The recorded result, or the error when there is none; a closed channel's result is always there |
| `ApplyObject.ApplyTracker.Applied` | pkg/raft/apply.go:62-70 | Records the result and closes exactly the open channels waiting for that index |
| `ApplyObject.Applier.Pick` | pkg/raft/apply.go:127-135 | This lock region is the step `Pick` of the step system, in any state: the index after the last applied one, with its entry if the log holds it |
| `ApplyObject.Applier.Recheck` | pkg/raft/apply.go:141-150 | This lock region is the step `Recheck`: it goes on unless the index has been covered meanwhile, and then reports it empty |
| `ApplyObject.Applier.Skip` | pkg/raft/apply.go:152-162 | This lock region is the step `Skip` for an index nothing was read for: it counts as applied and is reported empty |
| `ApplyObject.Applier.Write` | pkg/raft/apply.go:163-166 | The store write is the step `Write` at the clock of the call |
| `ApplyObject.Applier.Report` | pkg/raft/apply.go:171-173 | Reporting is the step `Report`, and wakes exactly the waiters of that index |
| `ApplyObject.RunTurn` | pkg/raft/apply.go:117-175 | An undisturbed turn applies and reports exactly the next committed index, or passes it over if the log does not hold it |
| `ApplyObject.Drain` | pkg/raft/apply.go:117-175 | Left alone, the loop reaches the commit index: every index on the way runs its entry if the log holds it and is passed over otherwise, the store is the fold, and every index is reported with its outcome |
| `MemObject.ApplyTo` | pkg/raft/leader.go:340-357 | Dispatching a command on the in-place store computes the engine's meaning of that command and its reply |
| `Glob.MatchGlobLoop` | pkg/storage/fake.go:174-200 | The loop over pi, si, star and mark terminates and computes the search function |
| `Glob.AsteriskIsTheWildcard` | pkg/storage/fake.go:174-200 | A pattern of one byte matches everything if that byte is an asterisk, and otherwise only itself |
| `Glob.MatchGlobCorrect` | pkg/storage/fake.go:174-200 | On subjects with no star before the last byte the matcher agrees with the declarative meaning of `*` for every pattern |
| `Glob.MatchGlobCorrectExactly` | pkg/storage/fake.go:174-200 | It agrees on every pattern if and only if no byte of the subject but the last is a star |
| `Glob.StarInSubjectDefeats` | pkg/storage/fake.go:181-189 | A star before the last byte always defeats some pattern, which is given |
| `Decimal.FormatThenParse` | pkg/storage/memstore.go:102-126 | A counter written by Incr is read back as the same number, for every 64-bit value |
| `Decimal.ParseIntExactly` | pkg/storage/memstore.go:116-122 | A value is a number if and only if it is an optional sign and at least one digit, digits only, in the 64-bit range; and then it is the number those digits spell in base 10 |
| `Decimal.FormatIntSpells` | pkg/storage/memstore.go:102-126 | A number is written in base 10, with a minus sign if negative and no leading zero |
| `StoreLaws.NothingAtFirst` | pkg/storage/memstore.go:29-58 | A new store holds nothing |
| `StoreLaws.PutThenRead` | pkg/storage/memstore.go:60-66 | A put value is read at every later and earlier time |
| `StoreLaws.DeleteThenRead` | pkg/storage/memstore.go:68-74 | A deleted key reads as missing |
| `StoreLaws.ClearThenRead` | pkg/storage/memstore.go:76-82 | After Clear every key reads as missing |
| `StoreLaws.ExpireThenRead` | pkg/storage/memstore.go:33-58 | A deadline works from the very instant it names: the value is read before it and missing from it on; zero is no deadline; Expire on a missing key fails |
| `StoreLaws.CasThenRead` | pkg/storage/memstore.go:128-146 | A swap happens exactly on a match and drops the deadline; a mismatch and a missing key are told apart and change nothing |
| `StoreLaws.IncrThenRead` | pkg/storage/memstore.go:102-126 | A counter starts at 1, goes up by one and drops its deadline; what is no number, or is 2^63 - 1, is refused and left alone |
| `StoreLaws.OtherKeysStay` | pkg/storage/memstore.go:60-163 | No operation but Clear changes what another key reads as, at any time |
| `StoreLaws.DeadlinesOnlyTake` | pkg/storage/memstore.go:33-58 | With time alone a key reads the same or goes missing, and a missing key stays missing |
| `StoreLaws.AlikeIsSameReads` | pkg/storage/memstore.go:33-58 | Two stores have the same live state, in the sense of the statements about purging, replay and crashes, if and only if every key reads the same in both from now on, however long one waits |
| `StoreLaws.SameReadsSameFuture` | pkg/storage/memstore.go:37-163 | Stores that read the same from now on give the same reply to any operation, and read the same afterwards |
| `Expiry.ExpiryIsTransparent` | pkg/storage/memstore.go:37-180 | On a clock that never goes back, with sweeps and second phases of Get placed anywhere, every reply, page and count is that of a store that never purges and treats expired entries as absent |
| `Expiry.PurgesKeepLive` | pkg/storage/memstore.go:167-180 | No purge removes a live entry |
| `MemObject.MemStore.Get` | pkg/storage/memstore.go:37-58 | Answers the stored value if the key is there with no deadline or one not yet reached, and NotFound otherwise; removes at most an entry that is dead at every later time |
| `MemObject.MemStore.Incr` | pkg/storage/memstore.go:102-126 | New map and reply are the engine's meaning of Incr: a missing or dead entry becomes 1, the result has no deadline, and a value that is no number or is at the 64-bit maximum fails |
| `MemObject.MemStore.CAS` | pkg/storage/memstore.go:128-146 | New map and reply are the engine's meaning of CAS, with the missing key and the mismatch told apart, and what is stored given outright |
| `MemObject.MemStore.Expire` | pkg/storage/memstore.go:148-163 | New map and reply are the engine's meaning of Expire: a key that is there keeps its value under the new deadline, any other is refused |
| `MemObject.MemStore.SweepExpired` | pkg/storage/memstore.go:167-180 | The loop drops exactly the dead keys and counts them |
| `MemObject.MemStore.Size` | pkg/storage/memstore.go:89-100 | The loop counts exactly the live keys |
| `MemObject.MemStore.ScanKeys` | pkg/storage/memstore.go:190-215 | The loop collects, in order, the first `count` matching keys after the cursor that are there at that time; the cursor to continue from is the last of them if the page is full, and empty otherwise |
| `MemObject.MemStore.ScanPage` | pkg/storage/memstore.go:190-220 | One page is those keys, each with the value stored under it, and the cursor to continue from, or the error for a count that is not positive |
| `Scan.LessExactly` | pkg/storage/memstore.go:190-215 | The order of keys: the first byte that differs decides, and a proper prefix comes first |
| `Scan.PageValues` | pkg/storage/memstore.go:190-220 | Every page lists each of its keys with the value stored under it |
| `Scan.ScanNeverRepeats` | pkg/storage/memstore.go:190-220 | Pages followed by their cursors return strictly ascending keys, whatever changes in between |
| `Scan.ScanReportsSteadyKeysOnce` | pkg/storage/memstore.go:190-220 | A non-empty key that stays live and matching throughout is reported exactly once, whatever happens to the others |
| `Scan.QuietScanIsComplete` | pkg/storage/memstore.go:190-220 | On an unchanged store the scan ends, with exactly the sorted live matching keys |
| `Codec.RecordRoundTrip` | pkg/storage/wal.go:96-150 | A record within the field bound reads back as itself, whatever follows it |
| `Codec.RecordCanonical` | pkg/storage/wal.go:311-387 | Whatever parses is the encoding of what it parses to, so no two byte strings mean the same record |
| `Codec.LogRoundTrip` | pkg/storage/wal.go:206-237 | Any sequence of operations within the bound replays to exactly those operations, with nothing left over |
| `Codec.DecodeIsExact` | pkg/storage/wal.go:206-237 | On every byte string replay applies whole records only: the bytes are the encoding of what was applied plus a rest that starts no record |
| `Codec.DecodeIsLongest` | pkg/storage/wal.go:206-237 | Any log within the bound whose encoding begins the bytes is a prefix of what replay applied |
| `Codec.CutLog` | pkg/storage/wal.go:206-237 | A log cut anywhere reads back as its complete records and is accepted exactly when the cut falls between two records |
| `Codec.LogReadsBackExactly` | pkg/storage/wal.go:393-410 | Replay reads a log up to the first record with a field over 2^20 bytes and refuses everything from there on, whatever follows; a log reads back as itself if and only if every field is within the bound |
| `WireFormat.RecordLayout` | pkg/storage/wal.go:96-150 | Every record byte for byte: the operation code 1 to 6, each field as its length in four bytes, most significant first, and its bytes, and a deadline in eight |
| `WireFormat.FieldLimit` | pkg/storage/wal.go:393-410 | A field is read back if and only if it has at most 1048576 bytes |
| `WireFormat.UnknownOperation` | pkg/storage/wal.go:311-387 | A record whose first byte is not 1 to 6 is refused, and nothing of it is applied |
| `WireFormat.FrameLayout` | pkg/storage/wal.go:152-168 | A frame is a length in four bytes and the sealed record; the file starts with byte 240 |
| `WireFormat.FrameLimit` | pkg/storage/wal.go:242-306 | A file of one sealed record is read back as that record if the record is at most 2097216 bytes, and refused otherwise |
| `Framing.SealedLogRefinesPlain` | pkg/storage/wal.go:242-306 | A sealed log replays to exactly the operations of the plain log |
| `Framing.SealFitsExactly` | pkg/storage/wal.go:242-306 | Among records within the field bound, only a CAS whose three fields exceed 2^21 + 23 bytes together is too large once sealed |
| `Framing.OversizeSealedRecordIsRefused` | pkg/storage/wal.go:152-168 | Such a record is written, but every replay stops in front of it and refuses the log |
| `Framing.CutSealedLog` | pkg/storage/wal.go:242-306 | A sealed log cut inside a frame applies the complete records and is accepted exactly when the cut is in the length header or right after it |
| `Framing.AppendAfterTornHeader` | pkg/storage/wal.go:242-306 | After complete records, 0 to 4 bytes of a header, and at least one more sealed record, the log is accepted if and only if nothing was torn; otherwise replay stops at the tear |
| `Vault.SealedCrashRecovery` | pkg/storage/wal.go:242-306 | Whatever an encrypted store did since it was created, earlier crashes and reopenings included, after a crash inside the next batch: with no tear in the file it opens if and only if the cut is at most 4 bytes into a frame, with memory's live state plus the whole records of the batch; with a tear and nothing behind it, if and only if tear and cut together are still a tear, with memory's live state; with records acknowledged behind a tear, never |
| `Vault.SealedReopensExactly` | pkg/storage/wal.go:242-306 | After any such history, a store that was stopped opens again, with memory's live state, if and only if nothing was acknowledged behind a tear |
| `Replay.SecondReplayHarmlessExactly` | pkg/storage/snapshot.go:142-147 | For every log a store could have written in which every incremented key is also reset, replaying it over the state it produced leaves the live state unchanged if and only if no key is at risk |
| `Replay.KeyIdempotentExactly` | pkg/storage/wal.go:339-383 | The same for one key: unchanged by the second run if and only if it is not at risk, unless it is incremented and never reset |
| `Replay.MergedOrDrifting` | pkg/storage/batcher.go:101-124 | For a key without Incr, two runs of a log from different states have either come together for good, or the second has met no reset and no matching CAS |
| `Replay.ResetKeyIsSafe` | pkg/storage/wal.go:311-387 | Once a key has been reset, nothing before the reset matters to it, Incr or not |
| `Replay.NoMixNoRisk` | pkg/storage/snapshot.go:142-147 | A log in which no key has both Expire and CAS records leaves no key at risk |
| `Replay.IncrReplaysTwice` | pkg/storage/wal.go:334-347 | One Incr record, replayed twice, counts twice |
| `LaterClock.KeyLaterReplayExactly` | pkg/storage/wal.go:311-387 | One key at a time, in any log whose records ran at their own times: a key without Incr since its last reset is rebuilt at a later time if and only if memory no longer holds it or it was not changed, since that reset, under a deadline that has passed by then |
| `LaterClock.LaterReplayExactly` | pkg/storage/wal.go:311-387 | For every log whose records ran at their own times, in which no key was incremented since its last reset, replay at a later time rebuilds the live state if and only if no key memory still holds was changed, since its last reset, under a deadline that has passed by then |
| `LaterClock.RenewedKeyIsLost` | pkg/storage/wal.go:366-384 | A deadline renewed in time, and the key gone after a restart |
| `LaterClock.ReplayByLaterClock` | pkg/storage/wal.go:311-387 | Incr included: replay at a later time by which no deadline has passed rebuilds exactly the state the operations left when they ran |
| `LaterClock.LaterReplayDiffers` | pkg/storage/wal.go:334-347 | An Incr executed before a deadline and replayed after it starts over |
| `Disk.ExecOneMatchesEngine` | pkg/storage/batcher.go:81-148 | The durable store gives the plain engine's reply, and the plain engine's memory as far as any reader can tell |
| `Disk.MemoryIsSnapshotPlusLog` | pkg/storage/batcher.go:81-198 | Over any mix of requests, compactions, purges, crashes inside a write or a compaction, and reopenings, live memory equals the snapshot plus the replayed log, and the log is one that replay can read |
| `Disk.MemoryByLaterClock` | pkg/storage/wal.go:458-502 | By a real clock: after requests served at their own times, none of which incremented a key since its last reset, a restart rebuilds memory's live state if and only if no key memory still holds was changed, since its last reset, under a deadline that has passed by then |
| `Disk.MemoryBeforeDeadlines` | pkg/storage/wal.go:458-502 | Incr included: while no deadline has passed, a restart rebuilds all of memory |
| `Disk.CrashedWriteReopens` | pkg/storage/wal.go:206-237 | If `n` bytes of a batch reached the file, reopening is refused exactly when the cut tears a record, and otherwise rebuilds every acknowledged operation and a prefix of the batch |
| `Disk.CrashRecovery` | pkg/storage/wal.go:458-502 | Whatever the store did since it was created, earlier crashes and reopenings included, a crash inside the next write leaves a log that is refused as torn or recovers memory's live state plus a prefix of that batch |
| `Disk.CrashInCompactionWindow` | pkg/storage/snapshot.go:142-147 | With the snapshot saved and the log not yet truncated, reopening restores memory's live state if and only if no key is at risk, for logs in which every incremented key is also reset |
| `Recovery.LoggedExactly` | pkg/storage/batcher.go:81-148 | A request is logged if and only if it does not end in a missing key or a failed match |
| `Recovery.NothingAcknowledgedIsLost` | pkg/storage/wal.go:458-502 | End to end, over any mix of requests, compactions, purges, crashes inside a write and reopenings of a plain log: while the store opens, every key reads, from now on, as in an engine that ran in order everything that was acknowledged and the whole records of what was cut off |
| `Recovery.CompactionSettles` | pkg/storage/snapshot.go:142-147 | After compaction the log is empty and the store opens, at any time, with exactly what memory held |
| `Recovery.NothingSealedIsLost` | pkg/storage/wal.go:242-306 | The same over an encrypted log, where a crash behind a tear adds nothing |
| `Recovery.CompactionRepairs` | pkg/storage/snapshot.go:142-147 | Compaction repairs a tear: the encrypted file is its one header byte again, and opens at any time with exactly what memory held |
| `DiskObject.ReplayPlain` | pkg/storage/wal.go:206-237 | The loop applies exactly the decoded records to memory in order and succeeds if and only if all bytes are consumed |
| `DiskObject.ReplaySealed` | pkg/storage/wal.go:242-306 | The loop over length headers and blobs applies exactly the records of the complete frames and succeeds as the format says |
| `DiskObject.OpenDiskStore` | pkg/storage/wal.go:458-502 | Opening loads the snapshot, then replays the log over it, and fails exactly when the log is torn |
| `DiskObject.RecoverSealed` | pkg/storage/wal.go:458-502 | The same over an encrypted log: memory is the snapshot plus the records of the complete frames, and it fails exactly when the format says so |
| `DiskObject.DiskStore.AppendBatch` | pkg/storage/batcher.go:152-178 | The file grows by exactly the encodings of the batch, in order |
| `DiskObject.DiskStore.ApplyBatch` | pkg/storage/batcher.go:179-198 | Memory and replies are those of serving the batch one request at a time |
| `DiskObject.DiskStore.WriteBatch` | pkg/storage/batcher.go:152-198 | File, memory and replies are those of serving the requests one by one |
| `DiskObject.DiskStore.WriteSingle` | pkg/storage/batcher.go:81-148 | File, memory and reply are those of one-at-a-time execution; a CAS is logged only on a match and an Expire only on a live key |
| `DiskObject.DiskStore.BatchLoop` | pkg/storage/batcher.go:33-77 | For every request sequence and every placement of timer ticks and size limits, file, memory and replies are those of one-at-a-time execution in queue order |
| `DiskObject.DiskStore.CompactLocked` | pkg/storage/snapshot.go:142-147 | After compaction the snapshot is what memory holds, the log is empty, and a restart rebuilds exactly that, whatever its clock |

## Left out

- `InstallSnapshot`, `RestoreSnapshot` and the snapshot bridge in `cmd/server`.
- Re-application of the Raft log onto a recovered disk store after a restart.
- Single-node mode, where `propose` commits and applies without replication.
- `proposeWait`, follower redirects, and read paths of the node.
- Liveness of elections: timers and randomised timeouts are steps that may happen at any time.
- Goroutine scheduling inside `startElection` and `batchLoop`: replies and requests arrive as sequences, in any order.
- I/O failures of the write-ahead log: every append and sync of a running store succeeds; only crashes lose bytes.
- The internals of AES-GCM, JSON, the file system and `sort`.
- `FakeEngine`, apart from `matchGlob`.
- HTTP handlers, client, transports, metrics, chaos and linearizability harnesses, and command-line setup: I/O or easy members.
- Replication.MatchIndexIsTruthful: one leadership, in which a request given up on is not delivered later; what other machines do meanwhile is bounded by log matching only.
- Replication.CommittedIsHeldByMajority: same scope, from warranted match indexes.
- StateMachine.LeaderCompleteness: one way, over orderly runs. What goes wrong otherwise: an unclean step, `VoteReset.UncleanRunBreaksSafety`; a late request, `Leftovers.CommitIndexFalls`; a match index beyond the log, `WarrantLimits.WarrantedIsNotEnough`; a crash, `UnsavedRuns.AcknowledgedBeforeSaved`.
- StateMachine.StateMachineSafety: the same runs.
- StateMachine.CommittedStaysWithMajority: the same runs.
- Durability.CommittedIsOnMajorityDisks: one way, over careful runs, which have no crash; what the disks hold is what a crash would leave.
- ClusterCommit.ClusterCommitsWhatAMajorityHolds: one tenure without crashes or late requests of its term; `Leftovers.CommitIndexFalls` shows what a late request does.
- ClusterCommit.StepKeepsLeadInv: steps of such a tenure.
- NodeObject.Node.HandleAppendEntries: the decision and the save are not interleaved with other requests; the interleaved case is in the cluster model, see `Durability.SuccessIsSavedExactly`.
- NodeObject.Node.StartElection: models an election during which no other request is handled; the interleaved case is in the cluster model.
- NodeObject.MatchingPeerAnswers: neither log is compacted.
- NodeObject.Node.Exchange: neither log is compacted, and the peer's save succeeds.
- NodeObject.Node.Round: neither log is compacted, and the peer's save succeeds.
- NodeObject.Node.ReplicateToPeer: neither log is compacted; below the base the source hands over to `InstallSnapshot`, which is not modelled.
- NodeObject.Node.CatchUp: the transport delivers and the peer's saves succeed; compacted logs are excluded.
- Replay.SecondReplayHarmlessExactly: a key that is incremented and never reset is excluded, as `Replay.IncrReplaysTwice` shows.
- Replay.KeyIdempotentExactly: the same exclusion, for one key.
- Replay.MergedOrDrifting: a key without Incr; `Replay.ResetKeyIsSafe` covers the keys that are reset.
- LaterClock.KeyLaterReplayExactly: a key that is incremented after its last reset is excluded, as `LaterClock.LaterReplayDiffers` shows.
- LaterClock.LaterReplayExactly: the same exclusion, for all keys.
- LaterClock.ReplayByLaterClock: while no deadline has passed; `LaterClock.KeyLaterReplayExactly` goes on from there.
- Disk.MemoryBeforeDeadlines: while no deadline has passed; `Disk.MemoryByLaterClock` goes on from there.
- Disk.CrashRecovery: a plain log, and clock readings pinned to one time; `Vault.SealedCrashRecovery` has the encrypted log.
- Disk.CrashInCompactionWindow: an incremented key that is never reset is excluded, as `Replay.IncrReplaysTwice` shows; the crash is the first of its kind.
- Disk.MemoryIsSnapshotPlusLog: clock readings are pinned to one time; `Disk.MemoryByLaterClock` has the moving clock.
- Disk.MemoryByLaterClock: no Incr on a key since its last reset, and between two restarts.
- Recovery.NothingAcknowledgedIsLost: clock readings are pinned to one time, and no crash falls between saving a snapshot and truncating the log; `Disk.CrashInCompactionWindow` has that case.
- Recovery.NothingSealedIsLost: the same.
- WireFormat.RecordLayout: fields below 2^32 bytes and 64-bit deadlines, which is all the four and eight bytes can hold.
- Vault.SealedCrashRecovery: clock readings are pinned to one time; emptying the file and stamping it again are one step.
- DiskObject.DiskStore.WriteSingle: one clock reading per request, where Expire reads the clock again after logging.
- DiskObject.OpenDiskStore: a plain log; `DiskObject.RecoverSealed` has the encrypted one.
- DiskObject.RecoverSealed: recovers memory only; the running store over an encrypted log is modelled on values, in `Vault.dfy`.
- MemObject.MemStore.ScanKeys: sorts by ordered insertion, where the source calls the library's sort.
- ApplyLoop.AppliesWhatItReads: no snapshot is installed.
- ApplyLoop.AppliesOnceInOrder: committed entries stay in the log; `ApplyLoop.AppliesWhatItReads` has the other case.
