/**
 The listeners and timer ticks as the source runs them: loops and assignments on one peer's
 properties, its role and its log.  Each is proved equal to the function of `RaftNode` for it.
 */
module RaftPeers {
  import opened Messages
  import opened RaftLogs
  import opened AppendEntriesRequests
  import opened RaftNode
  import Storage = MemoryStoredRaftLogs

  class RaftPeer {
    const id: PeerId
    const peers: set<PeerId>
    const config: Config
    const logs: Storage.MemoryStoredRaftLogs
    var currentTerm: int
    var votedFor: Option<PeerId>
    var leaderId: Option<PeerId>
    var nextIndexes: map<PeerId, int>
    var matchIndexes: map<PeerId, int>
    var role: Role
    var commits: seq<Commit>

    ghost predicate Valid()
      reads this, logs
    {
      logs.Valid() && logs.expirationTimeInMs == config.expirationTimeInMs
    }

    ghost function Value(): Node
      reads this, logs
    {
      Node(id, peers, config, currentTerm, votedFor, leaderId, nextIndexes, matchIndexes, logs.State(), role, commits)
    }

    constructor (id: PeerId, peers: set<PeerId>, config: Config, logs: Storage.MemoryStoredRaftLogs)
      requires logs.Valid() && logs.expirationTimeInMs == config.expirationTimeInMs
      ensures Valid() && this.logs == logs
      ensures Value() == Node(id, peers, config, 0, None, None, map[], map[], logs.State(), Follower(map[]), [])
    {
      this.id, this.peers, this.config, this.logs := id, peers, config, logs;
      currentTerm, votedFor, leaderId := 0, None, None;
      nextIndexes, matchIndexes := map[], map[];
      role, commits := Follower(map[]), [];
    }

    /** Commits the log up to an index and emits one event per entry. */
    method EmitCommits(upTo: int, now: int)
      requires Valid()
      modifies this`commits, logs
      ensures Valid()
      ensures Value() == CommitLog(old(Value()), upTo, now)
    {
      var committed := logs.CommitUntil(upTo, now);
      ghost var s := logs.State();
      var i := 0;
      while i < |committed|
        invariant 0 <= i <= |committed| && Valid() && logs.State() == s
        invariant commits == old(commits) + CommitsOf(committed)[..i]
      {
        commits := commits + [Commit(committed[i].index, committed[i].entry)];
        i := i + 1;
      }
      assert CommitsOf(committed)[..|committed|] == CommitsOf(committed);
    }

    // ---------- follower ----------

    method FollowerUpdatesCommitIndex(leaderCommit: int, now: int)
      requires Valid()
      modifies this`commits, logs
      ensures Valid()
      ensures Value() == UpdateCommitIndex(old(Value()), leaderCommit, now)
    {
      if leaderCommit <= logs.commitIndex {
        return;
      }
      var expectedCommitIndex := Min(logs.nextIndex - 1, leaderCommit);
      if expectedCommitIndex <= logs.commitIndex {
        return;
      }
      EmitCommits(expectedCommitIndex, now);
    }

    /** The apply loop.  `success` would turn false if an entry could not be added; it never does. */
    method ApplyEntries(start: int, es: seq<Message>, now: int) returns (success: bool)
      requires Valid() && start <= logs.nextIndex
      modifies logs
      ensures Valid()
      ensures logs.State() == Applied(old(logs.State()), start, es, currentTerm, now)
      ensures success
    {
      hide Applied, WellFormed;
      var localNextIndex := logs.nextIndex;
      ghost var s := logs.State();
      success := true;
      ApplyNothing(s, start, currentTerm, now);
      var i := 0;
      assert es[..0] == [];
      while i < |es|
        invariant 0 <= i <= |es| && Valid() && success
        invariant logs.State() == Applied(s, start, es[..i], currentTerm, now)
      {
        ApplyStep(s, start, es, i, currentTerm, now);
        var added := ApplyEntry(start + i, localNextIndex, es[i], now);
        if !added {
          success := false;
        }
        i := i + 1;
      }
      assert es[..|es|] == es;
    }

    method ApplyEntry(logIndex: int, localNextIndex: int, entry: Message, now: int) returns (added: bool)
      requires Valid()
      modifies logs
      ensures Valid()
      ensures logs.State() == ApplyOne(old(logs.State()), localNextIndex, logIndex, entry, currentTerm, now)
      ensures added <==> logIndex < localNextIndex || logIndex == old(logs.nextIndex)
    {
      if logIndex < localNextIndex {
        var replaced := logs.CompareAndOverride(logIndex, currentTerm, entry, now);
        added := true;
      } else {
        added := logs.CompareAndAdd(logIndex, currentTerm, entry, now);
      }
    }

    method ResetOnGap(start: int)
      requires Valid()
      modifies logs
      ensures Valid() && logs.State() == GapReset(old(logs.State()), start)
    {
      if logs.nextIndex < start {
        logs.Reset(Max(0, start));
      }
    }

    method InstallRequest(a: Assembler, c: AppendChunk, now: int) returns (reply: AppendResponse)
      requires Valid()
      modifies this`commits, logs
      ensures Valid()
      ensures Install(old(Value()), a, c, now) == Effect(Value(), {AppendReply(reply)})
    {
      hide Applied, GapReset, WellFormed, UpdateCommitIndex;
      var start := a.leaderNextIndex - |a.entriesList|;
      GapResetKeeps(logs.State(), start);
      ResetOnGap(start);
      var success := ApplyEntries(start, a.entriesList, now);
      FollowerUpdatesCommitIndex(c.leaderCommit, now);
      reply := c.Response(success, logs.nextIndex, true);
    }

    /** The follower's listener for append requests; no reply when the assembler throws. */
    method OnAppendChunk(c: AppendChunk, now: int) returns (reply: Option<AppendResponse>)
      requires Valid() && role.Follower?
      modifies this, logs
      ensures Valid()
      ensures FollowerOnChunk(old(Value()), c, now) ==
              Effect(Value(), if reply.Some? then {AppendReply(reply.value)} else {})
    {
      if c.term < currentTerm {
        return Some(c.Response(false, -1, false));
      }
      if currentTerm < c.term {
        currentTerm := c.term;
        votedFor := None;
      }
      leaderId := Some(c.leaderId);
      if c.entry.None? && c.sequence == 0 {
        if !c.lastMessage {
          return Some(c.Response(false, -1, true));
        }
        FollowerUpdatesCommitIndex(c.leaderCommit, now);
        return Some(c.Response(true, logs.nextIndex, true));
      }
      reply := OnEntryChunk(c, now);
    }

    method OnEntryChunk(c: AppendChunk, now: int) returns (reply: Option<AppendResponse>)
      requires Valid() && role.Follower?
      modifies this`role, this`commits, logs
      ensures Valid()
      ensures FollowerOnEntryChunk(old(Value()), c, now) ==
              Effect(Value(), if reply.Some? then {AppendReply(reply.value)} else {})
    {
      var request := if c.requestId in role.pending then role.pending[c.requestId] else NewAssembler(c.requestId);
      var throws := Throws(request, c);
      request := AddChunk(request, c);
      role := Follower(role.pending[c.requestId := request]);
      if throws {
        return None;
      }
      if !request.ready {
        return Some(c.Response(true, -1, false));
      }
      assert role.pending - {c.requestId} == old(role.pending) - {c.requestId};
      role := Follower(role.pending - {c.requestId});
      var r := InstallRequest(request, c, now);
      reply := Some(r);
    }

    method OnVoteRequest(r: VoteRequest) returns (reply: VoteResponse)
      requires role.Follower?
      modifies this`votedFor
      ensures FollowerOnVote(old(Value()), r) == Effect(Value(), {VoteReply(reply)})
    {
      if r.term <= currentTerm {
        return r.Response(false);
      }
      if 0 < logs.commitIndex {
        if r.lastLogIndex < logs.commitIndex {
          return r.Response(false);
        }
      }
      var voteGranted := votedFor == None;
      if voteGranted {
        votedFor := Some(r.candidateId);
      } else {
        voteGranted := votedFor == Some(r.candidateId);
      }
      reply := r.Response(voteGranted);
    }

    method FollowerRun(timedOut: bool)
      requires role.Follower?
      modifies this
      ensures Value() == FollowerTick(old(Value()), timedOut)
    {
      if !timedOut {
        return;
      }
      leaderId := None;
      votedFor := None;
      if peers == {} {
        return;
      }
      if config.onlyFollower {
        return;
      }
      role := Candidate(currentTerm + 1, {id}, {}, false);
    }

    // ---------- candidate ----------

    method OnVoteReply(r: VoteResponse)
      requires role.Candidate?
      modifies this
      ensures Value() == CandidateOnVoteReply(old(Value()), r)
    {
      if r.sourcePeerId !in peers {
        return;
      }
      if role.electionTerm < r.term {
        role := Follower(map[]);
        return;
      }
      if r.term < role.electionTerm {
        return;
      }
      if !r.voteGranted {
        return;
      }
      role := role.(votes := role.votes + {r.sourcePeerId});
      var numberOfPeerIds := |peers| + 1;
      if numberOfPeerIds < |role.votes| * 2 {
        TakeLead();
      }
    }

    method TakeLead()
      requires role.Candidate?
      modifies this
      ensures Value() == Lead(old(Value()))
    {
      if role.electionTerm <= currentTerm {
        role := Follower(map[]);
        return;
      } else if currentTerm + 1 < role.electionTerm {
        role := Follower(map[]);
        return;
      }
      currentTerm := role.electionTerm;
      role := Leader(map[]);
      leaderId := Some(id);
    }

    method CandidateOnAppendChunk(c: AppendChunk)
      requires role.Candidate?
      modifies this`role
      ensures Value() == CandidateOnChunk(old(Value()), c)
    {
      if c.term < role.electionTerm {
        return;
      }
      role := Follower(map[]);
    }

    method CandidateRun(timedOut: bool) returns (out: set<Packet>)
      requires role.Candidate?
      modifies this`role
      ensures CandidateTick(old(Value()), timedOut) == Effect(Value(), out)
    {
      ghost var n := Value();
      out := {};
      var todo := peers;
      var notified := role.notified;
      while todo != {}
        invariant todo <= peers && role == n.role && Value() == n
        invariant notified == n.role.notified + (peers - todo)
        invariant out == RequestsTo(n, (peers - todo) - n.role.notified)
        decreases todo
      {
        var p :| p in todo;
        ghost var seen := peers - todo;
        assert peers - (todo - {p}) == seen + {p};
        assert seen + {p} - n.role.notified ==
               if p in n.role.notified then seen - n.role.notified else seen - n.role.notified + {p};
        RequestsToGrow(n, seen - n.role.notified, p);
        if p !in notified {
          out := out + {Vote(VoteRequest(role.electionTerm, logs.nextIndex - 1, currentTerm, p, id))};
          notified := notified + {p};
        }
        todo := todo - {p};
      }
      var started := role.started;
      role := role.(notified := notified, started := true);
      assert peers - todo == peers;
      if started && timedOut {
        role := Follower(map[]);
      }
    }

    // ---------- leader ----------

    method LeaderOnAppendChunk(c: AppendChunk)
      requires role.Leader?
      modifies this
      ensures Value() == LeaderOnChunk(old(Value()), c)
    {
      if c.term < currentTerm {
        return;
      }
      if c.leaderId == id {
        return;
      }
      if c.leaderId !in peers {
        return;
      }
      if currentTerm < c.term {
        leaderId, role := None, Follower(map[]);
        return;
      }
      if id.rank < c.leaderId.rank {
        leaderId, role := None, Follower(map[]);
      }
    }

    /** How many peers, this one included, are known to hold index `i`. */
    method CountMatches(i: int) returns (matchCount: nat)
      ensures matchCount == 1 + |Matching(Value(), i)|
    {
      matchCount := 1;
      var todo := peers;
      ghost var matching, seen := Matching(Value(), i), {};
      while todo != {}
        invariant todo + seen == peers && todo !! seen && matchCount == 1 + |matching * seen|
        decreases todo
      {
        var p :| p in todo;
        var matchIndex := if p in matchIndexes then matchIndexes[p] else -1;
        if i <= matchIndex {
          matchCount := matchCount + 1;
        }
        MeetGrows(matching, seen, p);
        todo, seen := todo - {p}, seen + {p};
      }
      assert matching * seen == matching;
    }

    /** The counting loops: the greatest index to commit among the uncommitted entries below `peerNextIndex`. */
    method FindCommit(peerNextIndex: int) returns (maxCommitIndex: int)
      requires Valid()
      ensures maxCommitIndex == BestCommit(Value(), Min(logs.nextIndex, peerNextIndex))
    {
      maxCommitIndex := -1;
      ghost var n := Value();
      var entries := logs.Uncommitted();
      CollectFull(logs.entries, logs.commitIndex + 1, logs.nextIndex);
      var k := 0;
      while k < |entries|
        invariant 0 <= k <= |entries|
        invariant k == 0 || logs.commitIndex + k < peerNextIndex
        invariant maxCommitIndex == BestCommit(n, logs.commitIndex + 1 + k)
      {
        var logEntry := entries[k];
        BestCommitIsGreatest(n, logs.commitIndex + 1 + k);
        assert logEntry.index == logs.commitIndex + 1 + k;
        if peerNextIndex <= logEntry.index {
          break;
        }
        if logEntry.term == currentTerm {
          var matchCount := CountMatches(logEntry.index);
          if |peers| + 1 < matchCount * 2 {
            maxCommitIndex := Max(maxCommitIndex, logEntry.index);
          }
        }
        k := k + 1;
      }
    }

    method OnAppendReply(r: AppendResponse, now: int)
      requires Valid() && role.Leader?
      modifies this, logs
      ensures Valid()
      ensures Value() == LeaderOnReply(old(Value()), r, now)
    {
      if r.term < currentTerm {
        return;
      }
      if currentTerm < r.term {
        leaderId, role := None, Follower(map[]);
        return;
      }
      if !r.processed {
        return;
      }
      role := Leader(role.sent - {r.sourcePeerId});
      if !r.success {
        return;
      }
      nextIndexes := nextIndexes[r.sourcePeerId := r.peerNextIndex];
      matchIndexes := matchIndexes[r.sourcePeerId := r.peerNextIndex - 1];
      assert Value() == RecordReply(old(Value()), r);
      var maxCommitIndex := FindCommit(r.peerNextIndex);
      if 0 <= maxCommitIndex {
        EmitCommits(maxCommitIndex, now);
      }
    }

    /** One turn of the leader's loop over its peers: the chunks for one peer. */
    method SendTo(p: PeerId, now: int, requestId: RequestId) returns (out: set<Packet>)
      requires role.Leader?
      modifies this`role
      ensures LeaderSend(old(Value()), p, now, requestId) == Effect(Value(), out)
    {
      hide Collect;
      ghost var n := Value();
      var peerNextIndex := if p in nextIndexes then nextIndexes[p] else 0;
      var prevLogIndex := peerNextIndex - 1;
      var prevLogTerm := -1;
      if 0 <= prevLogIndex && prevLogIndex in logs.entries {
        prevLogTerm := logs.entries[prevLogIndex].term;
      }
      var entries := logs.CollectEntries(peerNextIndex, None);
      if p in role.sent && role.sent[p].created < now - SENT_REQUEST_TIMEOUT {
        role := Leader(role.sent - {p});
      }
      var h := Header(requestId, p, id, logs.commitIndex, logs.nextIndex, prevLogIndex, prevLogTerm, currentTerm);
      assert h == HeaderFor(n, p, requestId);
      if p !in role.sent && 0 < |entries| {
        ghost var es := MessagesOf(entries);
        out := {};
        for sequence := 0 to |entries|
          invariant out == FirstChunks(h, es, sequence)
          invariant Value() == n.(role := role) && role == Leader(n.role.sent - {p})
        {
          FirstChunksNext(h, es, sequence);
          out := out + {Append(h.Chunk(sequence, sequence == |entries| - 1, Some(entries[sequence].entry)))};
        }
        assert out == ChunksOf(h, es);
        role := Leader(role.sent[p := SentRequest(requestId, now)]);
        assert n.role.sent[p := SentRequest(requestId, now)] == (n.role.sent - {p})[p := SentRequest(requestId, now)];
      } else {
        out := {Append(h.Chunk(0, true, None))};
      }
    }

    method LeaderRunAlone()
      requires role.Leader?
      modifies this
      ensures Value() == LeaderTick(old(Value()))
    {
      if peers == {} {
        leaderId, role := None, Follower(map[]);
      }
    }

    method SubmitMessage(m: Message, now: int) returns (accepted: bool)
      requires Valid()
      modifies logs
      ensures Valid()
      ensures Value() == SubmitTo(old(Value()), m, now) && accepted == old(role).Leader?
    {
      if !role.Leader? {
        return false;
      }
      var index := logs.Submit(currentTerm, m, now);
      return true;
    }
  }

  ghost function FirstChunks(h: Header, es: seq<Message>, n: nat): set<Packet>
    requires n <= |es|
  {
    set i | i in Range(n) :: Append(h.EntryChunk(es, i))
  }

  lemma FirstChunksNext(h: Header, es: seq<Message>, n: nat)
    requires n < |es|
    ensures FirstChunks(h, es, n + 1) == FirstChunks(h, es, n) + {Append(h.EntryChunk(es, n))}
  {
    assert forall i :: i in Range(n + 1) <==> i in Range(n) || i == n;
  }

  lemma RequestsToGrow(n: Node, s: set<PeerId>, p: PeerId)
    requires n.role.Candidate?
    ensures RequestsTo(n, s + {p}) == RequestsTo(n, s) +
            {Vote(VoteRequest(n.role.electionTerm, n.log.nextIndex - 1, n.currentTerm, p, n.id))}
  {
  }

  lemma MeetGrows(a: set<PeerId>, b: set<PeerId>, p: PeerId)
    requires p !in b
    ensures |a * (b + {p})| == |a * b| + if p in a then 1 else 0
  {
    assert a * (b + {p}) == if p in a then a * b + {p} else a * b;
  }
}
