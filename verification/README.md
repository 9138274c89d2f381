# hamok-ts: a model and proofs

hamok-ts keeps collections replicated over a group of peers. Underneath is a hand-written variant of Raft: followers,
candidates and leaders exchange votes and chunked append requests, an in-memory log commits, overrides and expires
entries, and every commit is handed to the collections. On top are queues and maps that follow the committed commands,
connections that let a collection join late (snapshot, live commits and log replay together), responses cut into chunks,
and an executor that bounds concurrency.

The code departs from the Raft paper (Ongaro and Ousterhout, sections 5.2 to 5.4): it sends the previous index and term
but never checks them, recomputes indices from the leader's next index and the number of entries, lets a follower that
is too far behind drop its log, takes keep-alive replies as matches, stamps entries with the follower's own term, and
may clear a recorded vote. So the invariants below are those of the code, not of the paper.

## How the model is built

| file | what it holds |
|---|---|
| `Messages.dfy` | the records on the wire and in the log |
| `RaftLogs.dfy`, `MemoryStoredRaftLogs.dfy` | the log as a value, its laws, and the class that updates it in place |
| `AppendEntriesRequest.dfy` | splitting an append request into chunks and assembling it again |
| `RaftNode.dfy`, `RaftPeer.dfy` | each listener and tick of the three states on values; the class that runs them in place, proved equal |
| `Cluster.dfy` | the transition system: peers and all packets ever sent; a step delivers any packet, fires a timer, sends one heartbeat or proposes a message |
| `Listeners.dfy` | what each listener and tick sends, stores and commits, in both directions, said by its messages and fields |
| `Elections.dfy`, `Leadership.dfy` | election safety and its condition, what a winner covers, rival leaders |
| `LateArrivals.dfy` | packets of earlier terms and half-assembled requests play no part in a term: a run goes on as without them |
| `Agreement.dfy`, `OneTermAgreement.dfy` | agreement by stamp over all terms; agreement regardless of stamps within a term, expiry included |
| `Replication.dfy`, `StateMachineSafety.dfy` | runs without expiry: complete logs, sound records, quorum commits, one emitted sequence |
| `Progress.dfy` | what events a cluster always has ahead of it: an election won, a round of heartbeats that commits |
| `AcrossTerms.dfy` | runs without expiry over any number of terms: what a commit's quorum stores, what a winner holds |
| `Scenarios.dfy`, `Divergence.dfy`, `LostCommit.dfy`, `Misfiling.dfy` | concrete runs, and the three runs in which peers commit different messages |
| `Connection.dfy`, `Codec.dfy`, `Queue.dfy`, `QueueCatchUp.dfy`, `Map.dfy` | catching up, ordered maps and their encoding, the queue, the queue joining, the map |
| `ResponseChunks.dfy`, `Executor.dfy` | chunked responses; the executor |

Where the source changes objects step by step the project has a class with the same fields and loops; each method is
proved equal to a function on values, and the theorems are about these functions and about runs of them. The network
never forgets a packet and may deliver it any number of times, in any order, or never. Timers are steps that may happen
at any time; the clock is an arbitrary number, read once per listener call; `localeCompare` is an order on peer ids; a
fresh request id is a number not used before.

## Findings

What the code was found not to guarantee; each has its counterexample or exact condition in the table.

- Two peers can lead the same term, because a timeout clears a vote already given (`Leadership.TwoLeadersInOneTerm`).
- Across terms two peers can commit different messages at one index, even if every peer keeps its votes, because a
  follower's stale entry is counted as a copy of the new leader's (`Divergence.CommitsDiverge`). Safety holds in a term
  that begins with every log a part of the leader's and no conflicting request that a peer would still accept
  (`StateMachineSafety.EmittedSequencesAgree`). In any term a counted peer does hold the leader's messages if its
  entries carry the leader's term or the leader's stamps (`AcrossTerms.CommitsRestOnCounted`).
- A commit that a majority holds can be lost all the same: a voter compares the candidate's last index with what it has
  committed, not with what it holds, so a follower that has not heard of the commit yet elects a peer without the entry
  (`LostCommit.CommitIsLost`).
- A reply to a keep-alive feeds the leader's next and match indexes: the comment at `src/raft/RaftLeaderState.ts:98-101`
  expects such replies to be skipped, but `Map.delete` returns a boolean and never `undefined`. The model follows the
  code (`RaftNode.ReplyCountsWithoutRequest`).
- A follower that dropped its log can store a late entry below the hole. Elected, it sends requests across the hole, and
  the receivers file the entries at wrong indices and commit them there: a faithful run of three peers ends with
  different messages committed at index 1 (`Misfiling.StrayLeaderMisfiles`; `RaftLogs.AlignedExactlyWithoutHoles` says
  exactly when a request is filed right).
- A collection that joins can miss commits: one after the snapshot but before the buffering began is skipped if a later
  one was buffered live (`Connections.CatchUpIsComplete`, `Connections.LateJoinerMissesCommit`).
- A connection that has joined never joins again: losing the leader makes it call `join`, which returns at once because
  it is still joined, although the listener means to restart the process (`Connections.NeverJoinsAgain`). So no snapshot
  closes the gap when its peer has dropped its log meanwhile.
- A queue of one item does not survive a snapshot import, and an emptied queue numbers its items anew
  (`Queues.SnapshotRoundTrip`, `Queues.LoneItemIsOverwritten`, `Queues.EmptiedQueueRenumbers`).
- Importing a map snapshot keeps stale keys (`Maps.ImportKeepsStaleKeysExactly`). A map is empty when it first joins, so
  this concerns the public import and a join that is retried after a snapshot. Inserting overwrites an existing 0, empty
  string or false, and removing skips it (`Maps.InsertKeepsExistingExactly`, `Maps.RemoveRemovesExactly`).
- A response chunker with one limit set and the other below 1 never ends (`ResponseChunks.ChunkingEndsExactly`). Hamok
  derives both limits from one option (`src/Hamok.ts:1311-1312`), so this takes a connection built by hand.
- Flushing parked actions starts one of them only (`Executors.FlushLeavesIdleExactly`), and a supplier that throws at
  once keeps its permit, unless a finishing task's continuation took it and its second turn meets no other one
  (`Executors.PermitsLostExactly`, `Executors.StoppedExactly`, `Executors.ThrowingSuppliersBlock`). Nothing in the repository parks or flushes, and its one
  executor has level 1 (`src/collections/HamokRemoteMap.ts:33`), at which a flush leaves no permit idle.

## Model

| member | source | states |
|---|---|---|
| RaftLogs.RunWellFormed | src/raft/MemoryStoredRaftLogs.ts:92-214 | over every sequence of submit, add, override, commit with expiry and reset from an empty log: commit index below next index, every entry at its own index below the next index, nothing above the commit index missing |
| RaftLogs.CommitHandsOutAll | src/raft/MemoryStoredRaftLogs.ts:92-128 | a commit in such a log never meets a missing entry and returns exactly the entries from the old commit index + 1 to min(n, nextIndex - 1), in order |
| RaftLogs.CommitsAreConsecutive | src/raft/MemoryStoredRaftLogs.ts:92-128 | over a whole run without a reset the commits hand out index 0, 1, 2, ... with no gap and no repeat, whatever is overridden or expires in between |
| RaftLogs.ExpireKeeps | src/raft/MemoryStoredRaftLogs.ts:312-372 | expiry deletes only entries below the commit index that are older than the threshold, changes none it keeps, and keeps the log's invariant |
| RaftLogs.ExpiresExactly | src/raft/MemoryStoredRaftLogs.ts:312-372 | an entry goes if and only if all entries from the first index up to some later one below the commit index are too old, so the last of the leading old ones stays, as does anything below the first index; the log starts at the first entry kept |
| RaftLogs.CommitExpiresExactly | src/raft/MemoryStoredRaftLogs.ts:92-128 | a commit expires, by the new commit index, exactly if it moves it; otherwise the log stays as it is |
| RaftLogs.WritesExactly | src/raft/MemoryStoredRaftLogs.ts:150-214 | an entry is added only at the next index, overridden only below it and only by another term, a missing one filled in; no other entry changes |
| RaftLogs.CommitKeeps | src/raft/MemoryStoredRaftLogs.ts:92-128 | a commit moves the commit index to its target only, keeps the invariant and every surviving entry, and touches nothing else when expiry is off |
| RaftLogs.SubmitKeeps | src/raft/MemoryStoredRaftLogs.ts:130-148 | submitting keeps the invariant and leaves no stray entry below the first index |
| RaftLogs.CollectFull | src/raft/MemoryStoredRaftLogs.ts:220-258 | collecting a range without holes gives one entry per index, in order |
| RaftLogs.CollectSplit | src/raft/MemoryStoredRaftLogs.ts:220-258 | a collected range is the concatenation of its two parts, wherever it is cut and whatever is missing |
| RaftLogs.AlignedExactlyWithoutHoles | src/raft/RaftFollowerState.ts:129-131 | the receiver's index `leaderNextIndex - length + i` is the sender's index for every collected entry if and only if no hole follows a collected entry |
| RaftLogs.NoStragglersAligned | src/raft/RaftLeaderState.ts:193 | a log with no entry below its first index sends hole-free requests from any start |
| RaftLogs.StragglerMisaligns | src/raft/RaftFollowerState.ts:106-147 | what a gap reset with its entry, a late chunk and a further entry make of a log: an entry below the first index, then a hole, and a request collected from it is misaligned |
| Misfiling.StrayLeaderMisfiles | src/raft/RaftFollowerState.ts:106-152 | a faithful run of a new cluster of three: entries expire at the leader, a follower drops its log and takes a late chunk, is elected and sends a request across the hole, and its receiver commits at index 1 another message than the first leader |
| Misfiling.GetsRequest | src/raft/RaftFollowerState.ts:89-152 | the chunks of a request reaching a follower in order make it adopt the term, install the request once and report its next index, as a run of the cluster |
| Misfiling.BResets | src/raft/RaftFollowerState.ts:106-149 | the gap reset as the code runs it: the log restarts at the request's first index, which the request then fills |
| RaftLogs.WeightPut | src/raft/MemoryStoredRaftLogs.ts:171-189 | the sum over the stored entries changes by the new entry's weight less the replaced one's, independent of any order of summation |
| RaftLogs.WeightDelete | src/raft/MemoryStoredRaftLogs.ts:354-369 | deleting an entry lowers the sum by exactly its weight |
| MemoryStoredRaftLogs.MemoryStoredRaftLogs.CommitUntil | src/raft/MemoryStoredRaftLogs.ts:92-128 | the loop equals the value function, returns exactly the newly committed entries, never reaches its missing-entry branch, and the byte estimate stays the sum over what is stored |
| MemoryStoredRaftLogs.MemoryStoredRaftLogs.Expire | src/raft/MemoryStoredRaftLogs.ts:312-372 | both loops together equal the value function; the estimate stays exact; the guard after the scan never fires |
| MemoryStoredRaftLogs.MemoryStoredRaftLogs.ScanForExpired | src/raft/MemoryStoredRaftLogs.ts:319-339 | the scan skips a missing first entry and finds the last of the leading expired entries below the commit index, -1 if none |
| MemoryStoredRaftLogs.MemoryStoredRaftLogs.DeleteUntil | src/raft/MemoryStoredRaftLogs.ts:354-370 | deletes exactly the stored entries in the range and keeps the estimate exact |
| MemoryStoredRaftLogs.MemoryStoredRaftLogs.Submit | src/raft/MemoryStoredRaftLogs.ts:130-148 | appends at the next index, returns it, keeps invariant and estimate |
| MemoryStoredRaftLogs.MemoryStoredRaftLogs.CompareAndOverride | src/raft/MemoryStoredRaftLogs.ts:150-192 | replaces or fills an index below the next index unless the stamp is already the given term; returns the entry replaced; estimate exact |
| MemoryStoredRaftLogs.MemoryStoredRaftLogs.CompareAndAdd | src/raft/MemoryStoredRaftLogs.ts:194-214 | adds if and only if the expected index is the next one; estimate exact |
| MemoryStoredRaftLogs.MemoryStoredRaftLogs.CollectEntries | src/raft/MemoryStoredRaftLogs.ts:220-258 | returns the stored entries of the range, cut off at the next index, in index order |
| MemoryStoredRaftLogs.MemoryStoredRaftLogs.Uncommitted | src/raft/MemoryStoredRaftLogs.ts:265-273 | the iterator yields exactly the stored entries above the commit index, in order |
| MemoryStoredRaftLogs.MemoryStoredRaftLogs.Reset | src/raft/MemoryStoredRaftLogs.ts:275-283 | the log restarts empty at the given commit index, invariant and estimate holding |
| AppendEntriesRequests.RoundTrip | src/raft/RaftAppendEntriesRequest.ts:27-84 | the chunks of k >= 1 entries in any order without repeats are all taken; ready exactly at the last one, with the leader's entries in the leader's order under the leader's header |
| AppendEntriesRequests.AddGathers | src/raft/RaftAppendEntriesRequest.ts:27-84 | one chunk more keeps the assembler true to its request; it throws exactly on a position already filled, and a throw changes nothing |
| AppendEntriesRequests.FirstHeaderStays | src/raft/RaftAppendEntriesRequest.ts:31-51 | of two chunks the first decides every header field it sets, negative numbers counting as not set |
| AppendEntriesRequests.ReadyExactly | src/raft/RaftAppendEntriesRequest.ts:52-83 | for any chunk: it throws only on a foreign request or a filled position; the request is ready exactly if the end mark is 0 or as many entries are in as it asks for |
| AppendEntriesRequests.ListedInOrder | src/raft/RaftAppendEntriesRequest.ts:73-82 | the list holds each filled position once, in order, empty ones skipped |
| AppendEntriesRequests.RaftAppendEntriesRequest.Add | src/raft/RaftAppendEntriesRequest.ts:27-84 | the in-place `add` equals the assembler's value function, also where it throws, and reports the throw |
| AppendEntriesRequests.RaftAppendEntriesRequest.AddHeader | src/raft/RaftAppendEntriesRequest.ts:31-51 | a header field set by an earlier chunk stays; negative numbers count as unset |
| AppendEntriesRequests.RaftAppendEntriesRequest.AddEnd | src/raft/RaftAppendEntriesRequest.ts:60-83 | end marker, readiness and list after the chunk, as the value function says |
| RaftNode.ApplyLoopTotal | src/raft/RaftFollowerState.ts:124-147 | for every well-formed log and request: next index becomes the maximum of the old one and the leader's, each covered index holds the request's entry or one already stamped with the current term, all else is untouched, nothing is deleted |
| RaftNode.ApplyStep | src/raft/RaftFollowerState.ts:129-147 | one turn of the loop extends what is applied by one entry, and an add always meets the next index, so "not added" is never taken |
| RaftNode.GapResetKeeps | src/raft/RaftFollowerState.ts:106-122 | after the gap reset every request starts at or below the next index, which never falls |
| RaftNode.BestCommitIsGreatest | src/raft/RaftLeaderState.ts:108-137 | the index chosen is the greatest one above the commit index, below the bound, that is of the leader's term and matched by a strict majority; -1 exactly if there is none |
| RaftNode.ReplyCountsWithoutRequest | src/raft/RaftLeaderState.ts:95-106 | a successful reply sets the next and match index of its sender also when no request for entries is under way |
| Listeners.ReplyCommitsExactly | src/raft/RaftLeaderState.ts:80-146 | quorum commit in both directions: after a successful reply of the own term the sender's next index is on record, no entry of the own term that a majority matches below the reply's index is left uncommitted, nothing else is committed, and every message up to there is emitted once, in order |
| Listeners.OtherRepliesExactly | src/raft/RaftLeaderState.ts:67-93 | every other reply: a newer term ends the leadership, a processed failure frees the way for the next request, the rest is ignored |
| Listeners.EntriesSentExactly | src/raft/RaftLeaderState.ts:180-270 | without a request under way a heartbeat sends every stored entry from the recorded next index on, each in one chunk numbered in index order under the leader's header, the last one marked, and nothing else |
| Listeners.KeepAliveExactly | src/raft/RaftLeaderState.ts:222-288 | with a request younger than 30 s under way, or with nothing to send, it sends one keep-alive |
| Listeners.ProposalStoredExactly | src/raft/RaftEngine.ts:132-140 | a submitted message is stored at the next index under the leader's term, nothing else changes, and only a leader takes it |
| Listeners.EarlierChunkRefused | src/raft/RaftFollowerState.ts:52-57 | a chunk of an earlier term changes nothing and is refused |
| Listeners.KeepAliveTakenExactly | src/raft/RaftFollowerState.ts:72-85 | a keep-alive moves the commit index exactly to the smaller of the leader's and the own last index, emits each index passed, and is answered with the next index |
| Listeners.OtherChunkAssembled | src/raft/RaftFollowerState.ts:87-99 | any other chunk goes to its request; where that throws there is no answer; the log changes only if the request is then ready |
| Listeners.PartKeptExactly | src/raft/RaftFollowerState.ts:87-99 | a chunk that does not complete its request is kept and answered as not processed, or ignored if its position is filled; log, commits and other requests stay |
| Listeners.RequestInstalledExactly | src/raft/RaftFollowerState.ts:100-152 | the last missing chunk installs the request: which message each index holds afterwards, how far the commit index moves, what is emitted and what is answered |
| Listeners.VoteGivenExactly | src/raft/RaftFollowerState.ts:154-193 | a vote is given exactly to a candidate of a newer term whose last index reaches a commit index above 0 if none was given to another; it is recorded, and every request is answered |
| Listeners.WinsExactly | src/raft/RaftCandidateState.ts:62-91 | what a vote reply makes of a candidate: leader, follower, one vote more, or nothing |
| Listeners.CandidacyExactly | src/raft/RaftCandidateState.ts:36-48 | each peer is asked once, with the candidate's term and last index; the candidacy ends on a chunk of its term or later, or on a timeout after the first tick |
| Listeners.StandsExactly | src/raft/RaftFollowerState.ts:206-236 | a follower stands for the next term exactly if its time is up, it is not alone and may lead; its leader and vote are forgotten whenever its time is up |
| RaftPeers.RaftPeer.ApplyEntries | src/raft/RaftFollowerState.ts:125-147 | the apply loop ends in the applied log and with success still true |
| RaftPeers.RaftPeer.InstallRequest | src/raft/RaftFollowerState.ts:106-152 | gap reset, loop, commit and reply together equal the value function |
| RaftPeers.RaftPeer.FollowerUpdatesCommitIndex | src/raft/RaftFollowerState.ts:30-48 | commits up to the smaller of the leader's commit and the own last index, never back, one event per entry |
| RaftPeers.RaftPeer.OnAppendChunk | src/raft/RaftFollowerState.ts:49-153 | the follower's listener: all branches, the new state and the reply, none where the assembler throws |
| RaftPeers.RaftPeer.OnVoteRequest | src/raft/RaftFollowerState.ts:154-193 | grants only a newer term, a candidate whose last index reaches a commit index above 0, and a first or repeated candidate |
| RaftPeers.RaftPeer.FollowerRun | src/raft/RaftFollowerState.ts:206-236 | an election timeout clears leader and vote; it starts a candidacy unless the peer is alone or only a follower |
| RaftPeers.RaftPeer.OnVoteReply | src/raft/RaftCandidateState.ts:62-91 | counts votes of its own term from peers, gives up on a newer term, wins on a strict majority |
| RaftPeers.RaftPeer.TakeLead | src/raft/RaftCandidateState.ts:154-170 | leads only from the term right before the election term |
| RaftPeers.RaftPeer.CandidateOnAppendChunk | src/raft/RaftCandidateState.ts:36-48 | a chunk of the election term or later ends the candidacy |
| RaftPeers.RaftPeer.CandidateRun | src/raft/RaftCandidateState.ts:109-147 | the loop over the peers asks each peer once; the candidacy ends on a timeout after the first tick |
| RaftPeers.RaftPeer.LeaderOnAppendChunk | src/raft/RaftLeaderState.ts:39-66 | gives up to a newer term, or in its own term to a peer with the greater id |
| RaftPeers.RaftPeer.CountMatches | src/raft/RaftLeaderState.ts:118-126 | the count is the size of the set of peers known to match, the leader included |
| RaftPeers.RaftPeer.FindCommit | src/raft/RaftLeaderState.ts:108-137 | the nested counting loops find the greatest committable index below the peer's next index |
| RaftPeers.RaftPeer.OnAppendReply | src/raft/RaftLeaderState.ts:67-147 | the leader's listener for replies: records, commit and events as the value function says |
| RaftPeers.RaftPeer.SendTo | src/raft/RaftLeaderState.ts:180-288 | one turn of the heartbeat loop sends exactly the chunks of the collected entries, or one keep-alive while a request is under way or nothing is to be sent |
| RaftPeers.RaftPeer.SubmitMessage | src/raft/RaftEngine.ts:132-140 | a message reaches the log exactly if the peer leads |
| Cluster.StepMembership | src/raft/SyncedProperties.ts:3-16 | no step changes a peer's identity or membership, no term falls, no packet is forgotten |
| Cluster.StepLogs | src/raft/RaftFollowerState.ts:102-152 | every step of every peer keeps every log well formed, and no next index ever falls, whatever is delivered |
| Cluster.NewLeaderComesFromTermBefore | src/raft/RaftCandidateState.ts:154-170 | who leads a term for the first time was a candidate for it at the term before, and won by a vote just delivered, with its log unchanged |
| Cluster.FollowerChunkFacts | src/raft/RaftFollowerState.ts:49-153 | a chunk leaves a follower a follower at the greater of the two terms, its vote cleared exactly if its term rose, its log well formed and no shorter |
| Cluster.LeaderReplyFacts | src/raft/RaftLeaderState.ts:67-147 | a reply keeps a leader leading exactly if its term is not newer, and never shortens the log |
| Elections.AtMostOneLeaderPerTerm | src/raft/RaftCandidateState.ts:62-91 | in every run of a fixed new cluster in which no peer loses its vote or candidacy for a term still ahead of it, no two peers ever lead the same term, at one time or at different times |
| Elections.RunKeepsVoting | src/raft/RaftFollowerState.ts:154-193 | in every such run each vote counted was granted, each voter follows with its vote on record, nobody votes twice or votes and stands in one term, and every leader has a majority behind it |
| Elections.StepKeepsVoting | src/raft/RaftCandidateState.ts:109-170 | every faithful step keeps that invariant |
| Elections.NewGrant | src/raft/RaftFollowerState.ts:160-192 | a new granted vote in the network is a follower's answer to a request it received, at the moment it recorded it |
| Elections.WinnerCoversVoters | src/raft/RaftFollowerState.ts:167-176 | from its vote on, the voter's commit index of that moment (if above 0) stays within the log of the candidate it voted for, so also when that candidate leads |
| Elections.WinnerHoldsCommitted | src/raft/RaftFollowerState.ts:167-176 | if both logs hold parts of one sequence and the winner's has no hole, it holds every entry the voter had committed |
| Leadership.TwoLeadersInOneTerm | src/raft/RaftFollowerState.ts:214-230 | a run of a new cluster in which two peers lead term 1 at once: a timeout clears a vote already given |
| Leadership.SameTermRival | src/raft/RaftLeaderState.ts:59-65 | on a chunk of its own term a leader keeps leading if and only if the sender is no peer with a greater id |
| Leadership.LeaderYieldsExactly | src/raft/RaftLeaderState.ts:39-66 | for chunks of any term: a leader keeps leading if and only if no other peer of the cluster sent it in a newer term, whatever its id, or in the same term with a greater id |
| Leadership.LonelyLeaderGivesUp | src/raft/RaftLeaderState.ts:170-175 | a leader without any other peer gives up at its next tick; with others no tick ends its leadership |
| Leadership.NeverLeadsAgain | src/raft/RaftFollowerState.ts:232-235 | who led a term and stopped never leads that term again |
| Leadership.LowerLeaderGivesUp | src/raft/RaftLeaderState.ts:59-65 | once a chunk of a greater leader of its term was delivered, a leader no longer leads that term, ever |
| Leadership.StaysLeader | src/raft/RaftLeaderState.ts:39-79 | a leader that nothing newer and no greater rival reaches keeps leading |
| Leadership.ExactlyOneRemains | src/raft/RaftLeaderState.ts:39-66 | of any set of leaders of one term exactly the one with the greatest id remains once its chunks have reached the others |
| Agreement.StampsAgree | src/raft/RaftFollowerState.ts:124-147 | with at most one leader a term and no hole in what leaders send, an index and a stamp determine the message, over all peers, all moments and all terms, expiry and gap resets included |
| Agreement.FaithfulRunsAgree | src/raft/RaftFollowerState.ts:124-193 | the same from the condition on the voters alone |
| Agreement.StepKeepsInv | src/raft/RaftLeaderState.ts:180-287 | every step keeps the history per term that explains all logs, all pending requests and all chunks in flight |
| Agreement.InstalledStamps | src/raft/RaftFollowerState.ts:106-147 | installing a request of the history keeps the log explained by it, also through a gap reset |
| LateArrivals.LiveRun | src/raft/RaftFollowerState.ts:52-57 | the term check works: while one leader's term lasts, every run shows the same logs and commits at every moment as the run of the same events from the start without packets its receivers refuse, replies of earlier terms and requests left half assembled |
| LateArrivals.StepShadows | src/raft/RaftFollowerState.ts:49-153 | any step keeps a cluster and the same cluster short of such packets and assemblers in step, whether it delivers what remains or what is gone |
| LateArrivals.DeadIsIgnored | src/raft/RaftLeaderState.ts:68-71 | delivering such a packet changes no peer, and the reply it may draw is one that is ignored again |
| LateArrivals.DeadStaysDead | src/raft/RaftFollowerState.ts:214-230 | what a receiver refuses now it refuses at every later time, also as a candidate |
| LateArrivals.SameChunk | src/raft/RaftFollowerState.ts:89-100 | a chunk has the same effect on a follower with and without the assemblers of other requests |
| OneTermAgreement.PeersAgreeInOneTerm | src/raft/RaftFollowerState.ts:102-152 | for as long as one leader's term lasts any two peers hold the same message at every index both store, whatever the stamps, under loss, duplication, delay and reordering, with expiry and gap resets; of what earlier terms sent only what a peer would still accept at the start must agree with the logs |
| OneTermAgreement.StepInTerm | src/raft/RaftLeaderState.ts:180-287 | every step within the term keeps the one history behind all logs and requests, and the leader's log free of stray entries |
| OneTermAgreement.PartsBegin | src/raft/RaftCandidateState.ts:164-169 | taking the lead changes no log, so the term may begin with any followers whose logs are parts of the leader's, if every chunk of a request for entries sent so far is one its receiver refuses; requests left half assembled do not matter |
| OneTermAgreement.FirstTermAgrees | src/raft/RaftLeaderState.ts:180-287 | the first term of every new cluster is such a term, with any expiry |
| Replication.LogsStayComplete | src/raft/MemoryStoredRaftLogs.ts:92-128 | in every run without expiry, through any elections, each peer stores exactly the indices below its next index and has emitted the commits 0, 1, ..., commitIndex |
| Replication.MatchIndexIsBelowNextIndex | src/raft/RaftLeaderState.ts:103-106 | without expiry what a leader has on record about a peer never runs ahead of that peer's log, though late replies may lower it |
| Replication.GapResetUnreachable | src/raft/RaftFollowerState.ts:106-122 | without expiry a request that becomes complete starts at or below the follower's next index, whatever the order of delivery, so the log is never dropped |
| Replication.NoExpirySendsWithoutHoles | src/raft/RaftLeaderState.ts:181-193 | without expiry every heartbeat collects its entries without a hole |
| Replication.RunsWithoutExpiryAgree | src/raft/RaftFollowerState.ts:124-193 | without expiry the condition on the voters is all that agreement by stamp needs |
| Replication.StepKeepsSafe | src/raft/RaftLeaderState.ts:67-289 | every step keeps complete logs, consecutive commits, sound records, honest replies and requests that start within their receiver's log; only heartbeats add requests |
| Replication.UpdateCommitSound | src/raft/RaftFollowerState.ts:30-48 | the follower's commit emits exactly the entries between the old and the new commit index, in order |
| StateMachineSafety.LogsAgreeInOneTerm | src/raft/RaftFollowerState.ts:102-152 | without expiry, in one term, whatever earlier terms sent that peers refuse: peers agree at every common index, and no follower's log or commit index passes the leader's |
| StateMachineSafety.EmittedSequencesAgree | src/raft/RaftLeaderState.ts:138-146 | in such a term, whatever earlier terms sent that peers refuse, and wherever each commit index stood at its start: every peer emits consecutive commits, two peers emit the same message at every index both emit, and if what was emitted before agrees with the leader's log, of any two whole emitted sequences one is a prefix of the other |
| StateMachineSafety.StepKeepsEmitted | src/raft/RaftFollowerState.ts:30-48 | every step within the term keeps all that any peer ever emitted equal to the leader's log |
| StateMachineSafety.SoundPartsStart | src/raft/RaftCandidateState.ts:164-169 | the starting condition is met by complete logs that are parts of the leader's, commit and recorded next indices within bounds, and, of what can still be accepted, only keep-alives and honest replies |
| StateMachineSafety.CommitsRestOnMajority | src/raft/RaftLeaderState.ts:103-146 | whenever the leader's commit index moved in such a term, the entry there is of that term and a strict majority, the leader included, stores the leader's messages up to it |
| StateMachineSafety.ReplyCommits | src/raft/RaftLeaderState.ts:95-146 | a reply moves the commit index only to an index of the leader's term that a majority is on record for, within the log |
| StateMachineSafety.StepKeepsTerm | src/raft/RaftLeaderState.ts:67-289 | every step within the term keeps followers behind the leader, emitted commits on the leader's log, and a majority behind the commit index |
| StateMachineSafety.FirstLeaderStarts | src/raft/RaftCandidateState.ts:154-170 | the first leader of a new cluster meets the starting condition of these theorems |
| StateMachineSafety.FirstTermIsSafe | src/raft/RaftLeaderState.ts:108-146 | in the first term of every new cluster without expiry, of any two peers' whole emitted sequences one is a prefix of the other |
| Progress.MajorityElects | src/raft/RaftCandidateState.ts:62-170 | in any cluster of any size: a follower that may lead and that is a majority together with peers that would vote for it has a run ahead in which it becomes leader of the next term, its log and all other peers' logs, terms and roles unchanged |
| Progress.Exchange | src/raft/RaftLeaderState.ts:95-288 | a heartbeat, its delivery and the answer: the follower's log and commit index have caught up with the leader's, the leader has it on record and commits whatever that makes eligible |
| Progress.TwoRoundsCommit | src/raft/RaftLeaderState.ts:103-288 | in any state reachable without expiry: a leader that is a majority with followers to whom no request is under way has a run ahead after which it and all of them have committed and emitted, in order, every index it stored in its own term |
| Progress.NewClusterCommits | src/raft/RaftFollowerState.ts:206-236 | in any new cluster of two peers or more, any peer that may lead can be elected and get any message committed by all |
| AcrossTerms.CommitsRestOnCounted | src/raft/RaftLeaderState.ts:103-146 | in any term of any faithful run without expiry: when a leader's commit index moves, the entry there is of its term, and the peers it counted are a strict majority storing every index up to it; a counted peer whose entries carry the leader's term or the leader's stamps holds the leader's messages there |
| AcrossTerms.WinnerHoldsByStamp | src/raft/RaftFollowerState.ts:167-176 | in every faithful run without expiry a candidate voted for has every index the voter had committed (if above index 0), from the vote on, and the same message wherever the stamps are the same |
| Scenarios.Campaigns | src/raft/RaftCandidateState.ts:109-170 | a campaign of three peers from timeout to leadership as a run of the cluster, with the exact state it ends in |
| Divergence.CommitsDiverge | src/raft/RaftLeaderState.ts:95-146 | a faithful run of a new cluster of three without expiry in which two peers commit different messages at index 0 |
| LostCommit.CommitIsLost | src/raft/RaftFollowerState.ts:167-176 | a faithful run of a new cluster of three without expiry: a leader commits a message at index 0 that a majority holds, and the next leader, elected by a peer that holds it, commits any other message there and overwrites it |
| LostCommit.CommitsWithC | src/raft/RaftLeaderState.ts:95-146 | a new leader's first message is sent to one peer, installed, answered and committed, as a run of the cluster |
| Connections.HamokConnection.Accept | src/collections/HamokConnection.ts:209-264 | not joined: commands are buffered in order; joined: a commit at or below the applied index is dropped, a later one moves the index; closed: nothing happens |
| Connections.HamokConnection.Join | src/collections/HamokConnection.ts:190-207 | a connection that has joined returns at once; otherwise it catches up |
| Connections.HamokConnection.CatchUp | src/collections/HamokConnection.ts:797-875 | restore, replay from the log, swap and drain of the buffer equal the value function |
| Connections.HamokConnection.DrainBuffered | src/collections/HamokConnection.ts:870-874 | the drain loop, with its own skip and the gate behind it, equals the value function |
| Connections.CommitsAreHandledOnce | src/collections/HamokConnection.ts:209-264 | in any run of deliveries, joins and closing, with any snapshots and logs: since the last snapshot commits were handled in strictly increasing order, each at most once, none at or below the snapshot |
| Connections.NeverJoinsAgain | src/collections/HamokConnection.ts:190-207 | once joined, whatever follows, a connection stays joined, restores no snapshot and buffers nothing |
| Connections.DrainPasses | src/collections/HamokConnection.ts:856-874 | draining hands over exactly the buffered commits that rise above everything before them |
| Connections.NothingElseIsLost | src/collections/HamokConnection.ts:209-264 | over a whole run with a join: what is handled without a commit index are the hellos and state messages of others from before the join, then the commands from before it, then everything after it but the peer's own hellos, each once and in order |
| Connections.BeforeJoining | src/collections/HamokConnection.ts:213-237 | before the join hellos and state messages of others are handed on at once, commands are kept in order, and nothing else happens |
| Connections.JoinHandsOn | src/collections/HamokConnection.ts:856-874 | the join hands on every buffered command that has no commit index, in order; the log adds none of these |
| Connections.AfterJoining | src/collections/HamokConnection.ts:240-264 | in any run after the join exactly the messages received without a commit index are handed on, in order, but for the peer's own hellos |
| Connections.ReplayPasses | src/collections/HamokConnection.ts:839-854 | the replay starts at the applied index itself, whose entry never gets past the gate; every later entry of the storage does |
| Connections.CatchUpIsComplete | src/collections/HamokConnection.ts:797-875 | a join hands over every entry of the storage after the snapshot, in log order, if and only if it is not the case that one lies before the buffering began and another was buffered live |
| Connections.JoinedStateIsReplay | src/collections/HamokConnection.ts:803-874 | if the snapshot is the fold of the entries up to its index and nothing is lost, the joined state is the fold of all entries up to the greater of snapshot and commit index |
| Connections.LateJoinerMissesCommit | src/collections/HamokConnection.ts:839-874 | a run that loses a commit: one commit in the log before the collection was opened, one during the join, no snapshot |
| Codecs.EncodeMap | src/common/HamokCodec.ts:129-145 | encodes keys and values in the order of the keys |
| Codecs.DecodeMap | src/common/HamokCodec.ts:147-164 | sets the pairs in order and ignores values or keys without a partner |
| Codecs.MapRoundTrip | src/common/HamokCodec.ts:129-164 | with lossless codecs a map comes back equal, the order of its keys included |
| Codecs.DecodedExactly | src/common/HamokCodec.ts:147-164 | for any two arrays: every pair up to the shorter one's end is set, of pairs with one key the last one counts, and nothing else is there |
| Codecs.OrderOnlyGrows | src/common/HamokCodec.ts:147-164 | a key keeps the place of its first pair |
| Codecs.PutAll | src/collections/BaseMap.ts:50-71 | every entry is set, nothing else changes, and the old values of exactly the overwritten ones are reported |
| Queues.HamokQueue.OnInsertEntries | src/collections/HamokQueue.ts:76-100 | the values are appended at the tail in the order of the request |
| Queues.HamokQueue.OnRemoveEntries | src/collections/HamokQueue.ts:101-129 | each key is popped only while it is the head; the answer lists what was popped |
| Queues.HamokQueue.OnClearEntries | src/collections/HamokQueue.ts:60-75 | nothing is left and the head moves to the tail |
| Queues.HamokQueue.Pop | src/collections/HamokQueue.ts:332-346 | gives out the item at the head and moves on, or gives nothing and changes nothing |
| Queues.HamokQueue.Items | src/collections/HamokQueue.ts:24-36 | the iterator throws exactly on a negative range or a missing item; on a valid queue it yields the contents |
| Queues.HamokQueue.Export | src/collections/HamokQueue.ts:255-270 | the snapshot encodes the entries sorted by key |
| Queues.HamokQueue.Import | src/collections/HamokQueue.ts:284-321 | items, head and tail after an import, for any snapshot |
| Queues.FirstInFirstOut | src/collections/HamokQueue.ts:60-129 | over any run of committed pushes, pops and clears: keys are exactly head..tail-1, item k is the k-th value pushed, and what pops obtain comes in push order, each item at most once |
| Queues.NothingIsLost | src/collections/HamokQueue.ts:76-129 | without a clear, what was popped followed by what is queued is exactly what was pushed |
| Queues.OnlyFirstPopObtains | src/collections/HamokQueue.ts:101-115 | of two pops naming one head the first in log order obtains the item and the second nothing, whatever is committed between them |
| Queues.RunRefinesSequence | src/collections/HamokQueue.ts:60-129 | every run on the keyed map is the same run on a plain sequence |
| Queues.AnswerRefines | src/collections/HamokQueue.ts:101-129 | a pop request is answered with the first waiting value for each key that names it, as on a plain sequence |
| Queues.SnapshotRoundTrip | src/collections/HamokQueue.ts:255-321 | an imported snapshot restores head, tail and items if and only if the queue has at least two items, or none and starts at key 0; what it becomes otherwise |
| Queues.ImportEndsExactly | src/collections/HamokQueue.ts:306-321 | whatever the order of the imported keys, the head is the least, and the tail lies behind the greatest, or on it if there is but one |
| Queues.LoneItemIsOverwritten | src/collections/HamokQueue.ts:306-321 | a lone item cannot be popped after the import, and the next push overwrites it |
| Queues.EmptiedQueueRenumbers | src/collections/HamokQueue.ts:317-321 | after an emptied queue was imported, the pop that obtains the next item at the exporter obtains nothing at the importer |
| Queues.PushKeepsOrder | src/collections/HamokQueue.ts:197-211 | the values of a push arrive, numbered, encoded and decoded, in the order given |
| QueueCatchUp.QueueCatchesUp | src/collections/HamokQueue.ts:130-159 | a queue that joins from another peer's snapshot stands where a peer stands that replayed the whole history, if no commit is lost and the snapshot is transferable |
| Maps.MemoryBaseMap.SetAll | src/collections/BaseMap.ts:50-71 | all entries set, old values of the overwritten ones returned |
| Maps.MemoryBaseMap.InsertAll | src/collections/BaseMap.ts:82-96 | the in-place loop equals the value function and returns exactly the truthy entries that were there |
| Maps.MemoryBaseMap.RemoveAll | src/collections/BaseMap.ts:121-134 | the in-place loop equals the value function and returns exactly the truthy entries removed |
| Maps.MemoryBaseMap.GetAll | src/collections/BaseMap.ts:27-39 | exactly the truthy entries under the keys |
| Maps.InsertKeepsExistingExactly | src/collections/BaseMap.ts:82-96 | inserting leaves existing entries alone if and only if each one offered a different value is truthy |
| Maps.RemoveRemovesExactly | src/collections/BaseMap.ts:121-134 | removing takes out all named keys if and only if the values under them are truthy |
| Maps.HamokMap.OnRequest | src/collections/HamokMap.ts:49-175 | the new map and the answer of every committed command, and when there is no answer |
| Maps.HamokMap.OnUpdate | src/collections/HamokMap.ts:136-175 | unconditional and conditional updates, the answer holding the old values of exactly the entries that changed |
| Maps.HamokMap.OnRemove | src/collections/HamokMap.ts:103-135 | a conditional removal takes effect only for one key whose truthy value is as expected |
| Maps.SwapIsConditional | src/collections/HamokMap.ts:401-413 | `updateIf` takes effect and answers the old value exactly if the value is found and as expected; else nothing changes and the answer is empty |
| Maps.InsertExactly | src/collections/HamokMap.ts:88-102 | key by key: an insert keeps every found value and answers with it, and every other offered key takes the offered value |
| Maps.UpdateExactly | src/collections/HamokMap.ts:159-173 | an unconditional update sets every offered key, leaves the others alone, and answers with the old values of exactly the keys that were there |
| Maps.ConditionalUpdateExactly | src/collections/HamokMap.ts:143-158 | a conditional update changes its one key exactly if it finds the expected value; with more or fewer keys it is left to time out |
| Maps.RemoveExactly | src/collections/HamokMap.ts:62-135 | a removal, or a deletion, takes out exactly the found values under its keys and answers with them |
| Maps.ConditionalRemoveExactly | src/collections/HamokMap.ts:103-135 | a conditional removal takes effect exactly if it names one key and finds the expected value; otherwise it is left to time out |
| Maps.ClearExactly | src/collections/HamokMap.ts:49-61 | a clear leaves nothing and is answered |
| Maps.OnlyFirstSwapWins | src/collections/HamokMap.ts:143-158 | of conditional updates expecting one value only the first takes effect, whatever other commands are committed in between, unless one of them offers the expected value again |
| Maps.ImportKeepsStaleKeysExactly | src/collections/HamokMap.ts:453-467 | importing a snapshot makes the map equal to the exporter's if and only if it held no key the exporter lacks |
| ResponseChunks.ResponseChunker.Apply | src/messages/ResponseChunker.ts:7-50 | which responses are cut, by which limit, and what a consumer gets that pulls a given number of times, for all limits |
| ResponseChunks.ResponseChunker.ChunkByKeys | src/messages/ResponseChunker.ts:52-70 | the generator's loop, pulled any number of times, yields exactly what the value function says, for all limits |
| ResponseChunks.ResponseChunker.ChunkByEntries | src/messages/ResponseChunker.ts:72-92 | the generator's loop over keys and values, pulled any number of times, for all limits |
| ResponseChunks.ChunkingEndsExactly | src/messages/ResponseChunker.ts:57-91 | the generator comes to an end if and only if the limit is at least 1 or there is nothing to slice |
| ResponseChunks.ChunksKeepLimits | src/messages/ResponseChunker.ts:29-92 | every chunk keeps the limits that count for its response, every one but the last reaches them, and a response comes uncut if and only if it is within them or has no keys |
| ResponseChunks.YieldsSlices | src/messages/ResponseChunker.ts:52-92 | chunk i holds the keys and values from position i times the limit on, is numbered i, and is marked last exactly if it ends with the last key |
| ResponseChunks.MixedLimitsNeverEnd | src/messages/ResponseChunker.ts:29-92 | with one limit set and the one that counts below 1, a response with keys is cut without end |
| ResponseChunks.PulledIsAll | src/messages/ResponseChunker.ts:52-92 | for a limit of at least 1 a consumer that pulls once per key, and at least once, gets all chunks |
| ResponseChunks.ChunksHold | src/messages/ResponseChunker.ts:52-92 | chunks are numbered in order, only the final one is marked last, and together they hold the keys and values once each, in order |
| ResponseChunks.PendingResponse.Accept | src/messages/PendingResponse.ts:43-109 | the in-place acceptance, with its assembly loop, equals the value function |
| ResponseChunks.LaterChunkCounts | src/messages/PendingResponse.ts:58-88 | of two chunks with one number the later counts; the result is there exactly if as many chunks are in as the end mark asks for, the first among them |
| ResponseChunks.LoneChunkIsResult | src/messages/PendingResponse.ts:72-82 | a chunk numbered 0 and marked last is the result, whatever was pending |
| ResponseChunks.ResponseRoundTrip | src/messages/PendingResponse.ts:43-109 | for both limits at least 1 and values paired with keys: delivered in any order, any number of times, the chunks give the response back exactly when the last missing one arrives |
| ResponseChunks.RestoredExactly | src/messages/ResponseChunker.ts:72-92 | without the pairing: all chunks restore the response if and only if the values reach into the last slice and not beyond the keys |
| Executors.ConcurrentExecutor.Run | src/common/ConcurrentExecutor.ts:52-64 | takes the oldest waiting supplier if a permit is free; a throw is passed on |
| Executors.ConcurrentExecutor.OnFinished | src/common/ConcurrentExecutor.ts:40-63 | a settled promise gives its permit back and starts the next one, twice if that throws |
| Executors.PermitsAddUp | src/common/ConcurrentExecutor.ts:22-64 | in any run with suppliers that return promises: running and free permits add up to the level, starts follow the queueing order, and whichever task finishes next raises the semaphore by one, without the cut-off |
| Executors.RaisedBalanced | src/common/ConcurrentExecutor.ts:40-50 | giving a permit back raises the semaphore by exactly one, without the cut-off |
| Executors.WaitingMeansBusy | src/common/ConcurrentExecutor.ts:22-64 | without parked actions nothing waits while a permit is free |
| Executors.FlushLeavesIdleExactly | src/common/ConcurrentExecutor.ts:34-38 | after a flush nothing waits beside a free permit if and only if at most one action was parked or at most one permit was free |
| Executors.LevelOneKeepsOrder | src/collections/HamokRemoteMap.ts:59-88 | at level 1, as the remote map uses it, what finished is a prefix of what started, which is a prefix of what was queued |
| Executors.ThrowingSuppliersBlock | src/common/ConcurrentExecutor.ts:25-31 | as many suppliers that throw at submission as there are permits stop the executor for good |
| Executors.PermitsLostExactly | src/common/ConcurrentExecutor.ts:22-64 | in every run, whatever throws: running, free and lost permits add up to the level, so running and free ones do exactly if no unrepeated `_run` took a throwing supplier; the others start in queueing order and none is skipped |
| Executors.StoppedExactly | src/common/ConcurrentExecutor.ts:40-64 | no task runs and no permit is free exactly if all permits are lost, and then nothing ever starts again |

## Left out

- Membership changes, join and leave timers and the log reset driven by endpoint notifications (`src/Hamok.ts:1113-1186`): the cluster theorems are for a fixed set of peers.
- `removeUntil` of the log, which has no caller, and the log's initial entries, from which its next index is not derived.
- Protobuf classes, StorageCodec, HamokGridCodec, JSON text and the UTF-8 step of the snapshots: codecs are taken to be lossless.
- Grid requests, their promises and timeouts, ongoing-request notifications, and the splitting of large requests.
- HamokEmitter, HamokRecord, HamokRemoteMap and its back ends, apart from the executor the remote map uses.
- Log events, high-water marks, memory of missing entries, the tracking of unsynced peers, and the counter of failed elections with the order of close and init in the state setter of RaftEngine.
- Events the queue and the map emit to the application, and their guards on closed or connected collections.
- The retry loop of a first join: it is one step once it is known whether there is a snapshot; waiting, disconnecting and retrying before that are not modelled.
- The `truthy` test and `equalValues` are parameters of the map; null and undefined values are not modelled.
- Pending requests are held as values by `RaftPeer`; `AppendEntriesRequests.RaftAppendEntriesRequest` shows the same assembler in place.
- A heartbeat is one step per receiving peer; the loop over all peers in `src/raft/RaftLeaderState.ts:180-288` is a sequence of such steps.
- Progress.TwoRoundsCommit: says that such a run exists, not that a given network and given timers bring it about; fairness is not modelled.
- Elections.AtMostOneLeaderPerTerm: the condition on votes and candidacies is sufficient, not necessary; a vote may be forgotten without harm if nobody asks again.
- Elections.WinnerHoldsCommitted: assumes both logs hold parts of one sequence, which the code does not guarantee across terms (see `Divergence.CommitsDiverge`); `AcrossTerms.WinnerHoldsByStamp` does without, for entries of equal stamps.
- AcrossTerms.CommitsRestOnCounted: one direction only, because one message may be stored under two stamps; and it speaks of the moment of the commit, because a commit need not last (see `LostCommit.CommitIsLost`).
- Connections.JoinedStateIsReplay: one direction only, because two different sequences of commands may lead to one state; `Connections.CatchUpIsComplete` is exact on the commands handed over.
- Misfiling.StrayLeaderMisfiles: one run, for any four messages; it shows the failure, not all runs that fail.
