/**
 What every listener and every tick of a peer amounts to, in both directions: when something happens and
 when it does not, and what exactly is sent, stored and committed.
 */
module Listeners {
  import opened Messages
  import opened RaftLogs
  import opened AppendEntriesRequests
  import opened RaftNode
  import opened Cluster

  // ---------- committing ----------

  /** From `n` to `m` the commit index moved to `upTo`, and every index passed was emitted once, in order,
      with the message stored there. */
  ghost predicate CommittedUpTo(n: Node, m: Node, upTo: int) {
    && m.log.commitIndex == upTo && n.log.commitIndex <= upTo
    && |m.commits| == |n.commits| + (upTo - n.log.commitIndex) && n.commits <= m.commits
    && forall k {:trigger k in n.log.entries} :: n.log.commitIndex < k <= upTo ==>
         && k in n.log.entries
         && m.commits[|n.commits| + (k - n.log.commitIndex - 1)] == Commit(k, n.log.entries[k].entry)
  }

  /** Nothing but the log and the emitted commits may differ; what is still stored is unchanged. */
  ghost predicate OnlyLogChanged(n: Node, m: Node) {
    && m == n.(log := m.log, commits := m.commits)
    && m.log.nextIndex == n.log.nextIndex
    && forall k :: k in m.log.entries ==> k in n.log.entries && m.log.entries[k] == n.log.entries[k]
  }

  lemma EmittedEach(before: seq<Commit>, s: LogState, upTo: int)
    requires WellFormed(s) && s.commitIndex < upTo < s.nextIndex
    ensures var all := before + CommitsOf(NewlyCommitted(s, upTo));
      && |all| == |before| + (upTo - s.commitIndex) && before <= all
      && forall k {:trigger k in s.entries} :: s.commitIndex < k <= upTo ==>
           k in s.entries && all[|before| + (k - s.commitIndex - 1)] == Commit(k, s.entries[k].entry)
  {
    hide CommitsOf, NewlyCommitted, WellFormed;
    CommitHandsOutAll(s, upTo);
    var es := NewlyCommitted(s, upTo);
    var all := before + CommitsOf(es);
    forall k {:trigger k in s.entries} | s.commitIndex < k <= upTo
      ensures k in s.entries && all[|before| + (k - s.commitIndex - 1)] == Commit(k, s.entries[k].entry)
    {
      assert es[k - s.commitIndex - 1].index == k;
    }
  }

  lemma CommitLogExactly(n: Node, upTo: int, now: int)
    requires WellFormed(n.log) && n.log.commitIndex < upTo < n.log.nextIndex
    ensures CommittedUpTo(n, CommitLog(n, upTo, now), upTo) && OnlyLogChanged(n, CommitLog(n, upTo, now))
  {
    hide WellFormed, NewlyCommitted, CommitUntil, CommitsOf;
    CommitKeeps(n.log, upTo, n.config.expirationTimeInMs, now);
    EmittedEach(n.commits, n.log, upTo);
  }

  /** A follower commits exactly up to the smaller of the leader's commit index and its own last index. */
  lemma FollowerCommitsExactly(n: Node, leaderCommit: int, now: int)
    requires WellFormed(n.log)
    ensures var m := UpdateCommitIndex(n, leaderCommit, now);
      && CommittedUpTo(n, m, Max(n.log.commitIndex, Min(n.log.nextIndex - 1, leaderCommit)))
      && OnlyLogChanged(n, m)
  {
    hide WellFormed, CommitLog;
    if n.log.commitIndex < leaderCommit && n.log.commitIndex < Min(n.log.nextIndex - 1, leaderCommit) {
      CommitLogExactly(n, Min(n.log.nextIndex - 1, leaderCommit), now);
    }
  }

  // ---------- a leader gets a reply ----------

  /** An uncommitted entry of the leader's own term below `hi` that a strict majority, the leader included,
      is on record to store. */
  ghost predicate Eligible(n: Node, matches: map<PeerId, int>, hi: int, i: int) {
    && n.log.commitIndex < i < hi && 0 <= i && i in n.log.entries && n.log.entries[i].term == n.currentTerm
    && |n.peers| + 1 < (1 + |set p | p in n.peers && p in matches && i <= matches[p]|) * 2
  }

  lemma EligibleIsCommittable(n: Node, matches: map<PeerId, int>, hi: int, i: int)
    ensures Eligible(n, matches, hi, i) <==>
            n.log.commitIndex < i < hi && 0 <= i && Committable(n.(matchIndexes := matches), i)
  {
    if 0 <= i {
      assert Matching(n.(matchIndexes := matches), i) == set p | p in n.peers && p in matches && i <= matches[p];
    }
  }

  /** Quorum commit, both directions: after a successful reply of its own term a leader has recorded the
      sender's next index, no eligible index is left uncommitted, and it commits up to nothing but an eligible
      index, handing out every message up to it in order. */
  lemma ReplyCommitsExactly(n: Node, r: AppendResponse, now: int)
    requires n.role.Leader? && WellFormed(n.log)
    requires r.term == n.currentTerm && r.processed && r.success
    ensures var m := LeaderOnReply(n, r, now);
      var matches, hi := n.matchIndexes[r.sourcePeerId := r.peerNextIndex - 1], Min(n.log.nextIndex, r.peerNextIndex);
      && m.nextIndexes == n.nextIndexes[r.sourcePeerId := r.peerNextIndex] && m.matchIndexes == matches
      && m.role == Leader(n.role.sent - {r.sourcePeerId})
      && (forall i :: Eligible(n, matches, hi, i) ==> i <= m.log.commitIndex)
      && (m.log.commitIndex != n.log.commitIndex ==> Eligible(n, matches, hi, m.log.commitIndex))
      && CommittedUpTo(n, m, m.log.commitIndex)
      && OnlyLogChanged(n.(nextIndexes := m.nextIndexes, matchIndexes := matches, role := m.role), m)
  {
    hide WellFormed, CommitLog, Committable, Eligible;
    var k, hi := RecordReply(n, r), Min(n.log.nextIndex, r.peerNextIndex);
    BestCommitIsGreatest(k, hi);
    var target := BestCommit(k, hi);
    hide BestCommit;
    forall i
      ensures Eligible(n, k.matchIndexes, hi, i) <==> n.log.commitIndex < i < hi && 0 <= i && Committable(k, i)
    {
      EligibleIsCommittable(n, k.matchIndexes, hi, i);
      SameCommittable(n.(matchIndexes := k.matchIndexes), k, i);
    }
    if 0 <= target {
      CommitLogExactly(k, target, now);
    }
  }

  lemma SameCommittable(a: Node, b: Node, i: int)
    requires b == a.(role := b.role, nextIndexes := b.nextIndexes)
    ensures Committable(a, i) <==> Committable(b, i)
  {
    assert Matching(a, i) == Matching(b, i);
  }

  /** Every other reply: one of a newer term ends the leadership; a processed failure of the own term only
      allows the next request for entries; the rest is ignored. */
  lemma OtherRepliesExactly(n: Node, r: AppendResponse, now: int)
    requires n.role.Leader? && !(r.term == n.currentTerm && r.processed && r.success)
    ensures LeaderOnReply(n, r, now) ==
            if n.currentTerm < r.term then n.(leaderId := None, role := Follower(map[]))
            else if r.term == n.currentTerm && r.processed then n.(role := Leader(n.role.sent - {r.sourcePeerId}))
            else n
  {
    hide CommitLog, BestCommit;
  }

  // ---------- a leader sends ----------

  /** How many indices from `lo` on are stored below `k`. */
  ghost function Rank(entries: map<int, LogEntry>, lo: int, k: int): nat {
    |set j | j in entries && lo <= j < k|
  }

  lemma RankNext(entries: map<int, LogEntry>, lo: int, k: int)
    requires lo <= k
    ensures Rank(entries, lo, k + 1) == Rank(entries, lo, k) + if k in entries then 1 else 0
  {
    var below, upTo := set j | j in entries && lo <= j < k, set j | j in entries && lo <= j < k + 1;
    assert upTo == if k in entries then below + {k} else below;
  }

  lemma NothingBelow(entries: map<int, LogEntry>, lo: int, k: int)
    requires k <= lo
    ensures Rank(entries, lo, k) == 0
  {
    assert (set j | j in entries && lo <= j < k) == {};
  }

  /** What is collected are the stored entries, each at its rank. */
  lemma {:induction false} CollectedByRank(entries: map<int, LogEntry>, lo: int, hi: int)
    ensures |Collect(entries, lo, hi)| == Rank(entries, lo, hi)
    ensures forall k :: lo <= k < hi && k in entries ==>
              && Rank(entries, lo, k) < Rank(entries, lo, hi)
              && Collect(entries, lo, hi)[Rank(entries, lo, k)] == entries[k]
    decreases hi - lo
  {
    hide Rank;
    if hi <= lo {
      NothingBelow(entries, lo, hi);
    } else {
      CollectedByRank(entries, lo, hi - 1);
      RankNext(entries, lo, hi - 1);
    }
  }

  /** The next index on record for a peer, 0 if there is none. */
  lemma NextOnRecord(n: Node, p: PeerId)
    ensures p in n.nextIndexes ==> NextIndex(n, p) == n.nextIndexes[p]
    ensures p !in n.nextIndexes ==> NextIndex(n, p) == 0
  {
  }

  /** A chunk of the leader `n` for `p`. */
  ghost predicate IsChunkFor(x: AppendChunk, n: Node, p: PeerId, id: RequestId) {
    && x.requestId == id && x.peerId == p && x.leaderId == n.id && x.term == n.currentTerm
    && x.leaderCommit == n.log.commitIndex && x.leaderNextIndex == n.log.nextIndex
    && x.prevLogIndex == NextIndex(n, p) - 1
    && x.prevLogTerm == if 0 <= x.prevLogIndex && x.prevLogIndex in n.log.entries
                        then n.log.entries[x.prevLogIndex].term else -1
  }

  /** A request for entries is under way to `p`, and not older than half a minute. */
  ghost predicate UnderWay(n: Node, p: PeerId, now: int)
    requires n.role.Leader?
  {
    p in n.role.sent && now - n.role.sent[p].created <= 30000
  }

  /** A heartbeat while a request for entries is under way, or with nothing for the peer, sends one keep-alive. */
  lemma KeepAliveExactly(n: Node, p: PeerId, now: int, id: RequestId)
    requires n.role.Leader?
    requires UnderWay(n, p, now) || forall k :: k in n.log.entries ==> k < NextIndex(n, p) || n.log.nextIndex <= k
    ensures var f := LeaderSend(n, p, now, id);
      && f.node == n.(role := Leader(if UnderWay(n, p, now) then n.role.sent else n.role.sent - {p}))
      && exists x :: && f.out == {Append(x)} && IsChunkFor(x, n, p, id)
                     && x.entry.None? && x.sequence == 0 && x.lastMessage
  {
    var from := NextIndex(n, p);
    CollectedByRank(n.log.entries, from, n.log.nextIndex);
    if !UnderWay(n, p, now) {
      assert (set j | j in n.log.entries && from <= j < n.log.nextIndex) == {};
    }
    var x := HeaderFor(n, p, id).Chunk(0, true, None);
    assert LeaderSend(n, p, now, id).out == {Append(x)};
  }

  /** Otherwise it sends every stored entry from the peer's recorded next index on, each in its own chunk,
      numbered in index order, the last one marked, and nothing else; the request is under way from now on. */
  lemma EntriesSentExactly(n: Node, p: PeerId, now: int, id: RequestId)
    requires n.role.Leader? && !UnderWay(n, p, now)
    requires exists k :: k in n.log.entries && NextIndex(n, p) <= k < n.log.nextIndex
    ensures var f, from, next := LeaderSend(n, p, now, id), NextIndex(n, p), n.log.nextIndex;
      && f.node == n.(role := Leader(n.role.sent[p := SentRequest(id, now)]))
      && (forall k :: k in n.log.entries && from <= k < next ==>
            exists x :: Append(x) in f.out && Carries(x, n.log, from, k))
      && (forall q :: q in f.out ==>
            && q.Append? && IsChunkFor(q.chunk, n, p, id)
            && exists k :: k in n.log.entries && from <= k < next && Carries(q.chunk, n.log, from, k))
  {
    hide Rank, Collect, HeaderFor;
    var es, h := MessagesOf(Collect(n.log.entries, NextIndex(n, p), n.log.nextIndex)), HeaderFor(n, p, id);
    CollectedByRank(n.log.entries, NextIndex(n, p), n.log.nextIndex);
    var f := LeaderSend(n, p, now, id);
    assert f.out == ChunksOf(h, es);
    forall k | k in n.log.entries && NextIndex(n, p) <= k < n.log.nextIndex
      ensures exists x :: Append(x) in f.out && Carries(x, n.log, NextIndex(n, p), k)
    {
      var x := ChunkAtIndex(n, p, id, k);
    }
    forall q | q in f.out
      ensures q.Append? && IsChunkFor(q.chunk, n, p, id)
      ensures exists k :: k in n.log.entries && NextIndex(n, p) <= k < n.log.nextIndex
                          && Carries(q.chunk, n.log, NextIndex(n, p), k)
    {
      var i :| i in Range(|es|) && q == Append(h.EntryChunk(es, i));
      var k := IndexOfChunk(n, p, id, i);
    }
  }

  lemma ChunkAtIndex(n: Node, p: PeerId, id: RequestId, k: int) returns (x: AppendChunk)
    requires k in n.log.entries && NextIndex(n, p) <= k < n.log.nextIndex
    ensures Append(x) in ChunksOf(
              HeaderFor(n, p, id), MessagesOf(Collect(n.log.entries, NextIndex(n, p), n.log.nextIndex)))
    ensures Carries(x, n.log, NextIndex(n, p), k)
  {
    hide Rank, Collect, HeaderFor;
    var es := MessagesOf(Collect(n.log.entries, NextIndex(n, p), n.log.nextIndex));
    CollectedByRank(n.log.entries, NextIndex(n, p), n.log.nextIndex);
    var i := Rank(n.log.entries, NextIndex(n, p), k);
    assert i in Range(|es|) && es[i] == n.log.entries[k].entry;
    x := HeaderFor(n, p, id).EntryChunk(es, i);
  }

  lemma IndexOfChunk(n: Node, p: PeerId, id: RequestId, i: int) returns (k: int)
    requires 0 <= i < |MessagesOf(Collect(n.log.entries, NextIndex(n, p), n.log.nextIndex))|
    ensures var x := HeaderFor(n, p, id).EntryChunk(
              MessagesOf(Collect(n.log.entries, NextIndex(n, p), n.log.nextIndex)), i);
      && IsChunkFor(x, n, p, id)
      && k in n.log.entries && NextIndex(n, p) <= k < n.log.nextIndex && Carries(x, n.log, NextIndex(n, p), k)
  {
    hide Rank, Collect;
    CollectedByRank(n.log.entries, NextIndex(n, p), n.log.nextIndex);
    k := IndexOfRank(n.log.entries, NextIndex(n, p), n.log.nextIndex, i);
  }

  /** The chunk with the entry at index `k` of a request from index `from` on. */
  ghost predicate Carries(x: AppendChunk, s: LogState, from: int, k: int) {
    && k in s.entries && x.entry == Some(s.entries[k].entry) && x.sequence == Rank(s.entries, from, k)
    && (x.lastMessage <==> Rank(s.entries, from, k) + 1 == Rank(s.entries, from, s.nextIndex))
  }

  lemma {:induction false} IndexOfRank(entries: map<int, LogEntry>, lo: int, hi: int, i: int) returns (k: int)
    requires 0 <= i < Rank(entries, lo, hi)
    ensures k in entries && lo <= k < hi && Rank(entries, lo, k) == i
    decreases hi - lo
  {
    hide Rank;
    if hi <= lo {
      NothingBelow(entries, lo, hi);
      assert false;
    } else {
      RankNext(entries, lo, hi - 1);
      if i < Rank(entries, lo, hi - 1) {
        k := IndexOfRank(entries, lo, hi - 1, i);
      } else {
        k := hi - 1;
      }
    }
  }

  /** A proposal is stored at the next index under the leader's term, and only a leader takes it. */
  lemma ProposalStoredExactly(n: Node, m: Message, now: int)
    ensures var k := SubmitTo(n, m, now);
      && k == n.(log := k.log)
      && (!n.role.Leader? ==> k == n)
      && (n.role.Leader? ==>
            && k.log.nextIndex == n.log.nextIndex + 1 && k.log.commitIndex == n.log.commitIndex
            && k.log.firstIndex == n.log.firstIndex && n.log.nextIndex in k.log.entries
            && k.log.entries[n.log.nextIndex] == LogEntry(n.log.nextIndex, n.currentTerm, m, now)
            && forall i :: i != n.log.nextIndex ==>
                 (i in k.log.entries <==> i in n.log.entries)
                 && (i in n.log.entries ==> k.log.entries[i] == n.log.entries[i]))
  {
  }

  // ---------- a follower gets a chunk ----------

  /** What taking any chunk of the own or a newer term does to the peer's properties. */
  function Adopting(n: Node, c: AppendChunk): Node {
    n.(currentTerm := Max(n.currentTerm, c.term), leaderId := Some(c.leaderId),
       votedFor := if n.currentTerm < c.term then None else n.votedFor)
  }

  /** A chunk of an earlier term changes nothing and is refused. */
  lemma EarlierChunkRefused(n: Node, c: AppendChunk, now: int)
    requires n.role.Follower? && c.term < n.currentTerm
    ensures FollowerOnChunk(n, c, now) ==
            Effect(n, {AppendReply(AppendResponse(c.requestId, c.peerId, c.leaderId, c.term, false, -1, false))})
  {
    hide FollowerOnEntryChunk, UpdateCommitIndex;
  }

  /** A keep-alive moves the commit index as far as it may and is answered with the next index. */
  lemma KeepAliveTakenExactly(n: Node, c: AppendChunk, now: int)
    requires n.role.Follower? && n.currentTerm <= c.term && c.entry.None? && c.sequence == 0 && WellFormed(n.log)
    ensures var f, a := FollowerOnChunk(n, c, now), Adopting(n, c);
      if c.lastMessage then
        && CommittedUpTo(a, f.node, Max(n.log.commitIndex, Min(n.log.nextIndex - 1, c.leaderCommit)))
        && OnlyLogChanged(a, f.node)
        && f.out == {AppendReply(AppendResponse(
             c.requestId, c.peerId, c.leaderId, c.term, true, n.log.nextIndex, true))}
      else
        f == Effect(a, {AppendReply(AppendResponse(c.requestId, c.peerId, c.leaderId, c.term, false, -1, true))})
  {
    hide FollowerOnEntryChunk, UpdateCommitIndex, WellFormed;
    assert Adopt(n, c) == Adopting(n, c);
    FollowerCommitsExactly(Adopt(n, c), c.leaderCommit, now);
  }

  /** Any other chunk of the own or a newer term goes to its request, also one without an entry: where that throws
      there is no answer, and the log changes only if the request is then ready. */
  lemma OtherChunkAssembled(n: Node, c: AppendChunk, now: int)
    requires n.role.Follower? && n.currentTerm <= c.term && (c.entry.Some? || c.sequence != 0)
    ensures var f, a, b := FollowerOnChunk(n, c, now), PendingFor(n, c.requestId),
                           AddChunk(PendingFor(n, c.requestId), c);
      Throws(a, c) || !b.ready ==>
        && f.node == Adopting(n, c).(role := Follower(n.role.pending[c.requestId := b]))
        && f.out == (if Throws(a, c) then {}
                     else {AppendReply(AppendResponse(c.requestId, c.peerId, c.leaderId, c.term, true, -1, false))})
  {
    hide AddChunk, Throws, Install;
    assert Adopt(n, c) == Adopting(n, c) && PendingFor(Adopt(n, c), c.requestId) == PendingFor(n, c.requestId);
  }

  /** A chunk of a request that does not complete it: kept, or dropped without an answer if its position is
      filled already; the log stays as it is. */
  lemma PartKeptExactly(n: Node, h: Header, es: seq<Message>, i: int, now: int)
    requires n.role.Follower? && n.currentTerm <= h.term && 0 <= i < |es|
    requires Gathering(PendingFor(n, h.requestId), h, es) && !PendingFor(n, h.requestId).ready
    requires var a := PendingFor(n, h.requestId); i in a.entries || |a.entries| + 1 < |es|
    ensures var c, a := h.EntryChunk(es, i), PendingFor(n, h.requestId);
      var f := FollowerOnChunk(n, c, now);
      && f.node.role.Follower? && f.node == Adopting(n, c).(role := f.node.role)
      && PendingFor(f.node, h.requestId).entries == a.entries[i := es[i]]
      && f.node.role.pending - {h.requestId} == n.role.pending - {h.requestId}
      && f.out == (if i in a.entries then {}
                   else {AppendReply(AppendResponse(h.requestId, h.peerId, h.leaderId, h.term, true, -1, false))})
  {
    var c, a := h.EntryChunk(es, i), PendingFor(n, h.requestId);
    PartGathered(a, h, es, i);
    assert Adopt(n, c) == Adopting(n, c) && PendingFor(Adopt(n, c), c.requestId) == a;
    hide AddChunk, Throws, Gathering, Install;
  }

  lemma PartGathered(a: Assembler, h: Header, es: seq<Message>, i: int)
    requires 0 <= i < |es| && Gathering(a, h, es) && !a.ready && (i in a.entries || |a.entries| + 1 < |es|)
    ensures var b, c := AddChunk(a, h.EntryChunk(es, i)), h.EntryChunk(es, i);
      && !b.ready && b.entries == a.entries[i := es[i]] && (Throws(a, c) <==> i in a.entries)
  {
    AddGathers(a, h, es, i);
    if i in a.entries {
      assert a.entries[i := es[i]] == a.entries;
    } else {
      AddNew(a, h, es, i);
      assert |a.entries[i := es[i]]| == |a.entries| + 1;
    }
    hide AddChunk;
  }

  /** The log a complete request meets: emptied if it ends before the request starts. */
  function Met(s: LogState, start: int): LogState {
    if start <= s.nextIndex then s else LogState(map[], Max(0, start), Max(0, start) + 1, Max(0, start))
  }

  /** The log holds the request: at every index it covers its message, or one stamped with its term before. */
  ghost predicate TookRequest(s: LogState, t: LogState, start: int, es: seq<Message>, term: int) {
    && t.nextIndex == Max(s.nextIndex, start + |es|)
    && (forall k {:trigger k in t.entries} :: start <= k < start + |es| && k in t.entries ==>
          if k in s.entries && s.entries[k].term == term then t.entries[k] == s.entries[k]
          else t.entries[k].entry == es[k - start] && t.entries[k].term == term)
    && (forall k :: k in t.entries && !(start <= k < start + |es|) ==> k in s.entries && t.entries[k] == s.entries[k])
  }

  lemma AppliedTakes(s: LogState, start: int, es: seq<Message>, term: int, now: int)
    requires WellFormed(s) && start <= s.nextIndex
    ensures var t := Applied(s, start, es, term, now);
      && WellFormed(t) && TookRequest(s, t, start, es, term) && t.commitIndex == s.commitIndex
      && forall k :: k in s.entries || start <= k < start + |es| ==> k in t.entries
  {
    ApplyLoopTotal(s, start, es, term, now);
  }

  lemma TakenStays(s: LogState, t: LogState, u: LogState, start: int, es: seq<Message>, term: int)
    requires TookRequest(s, t, start, es, term) && u.nextIndex == t.nextIndex
    requires forall k :: k in u.entries ==> k in t.entries && u.entries[k] == t.entries[k]
    ensures TookRequest(s, u, start, es, term)
  {
  }

  /** All chunks of the request are in but the one at position `i`. */
  ghost predicate Lacks(a: Assembler, h: Header, es: seq<Message>, i: int) {
    Gathering(a, h, es) && !a.ready && i !in a.entries && |a.entries| + 1 == |es|
  }

  /** What installing a request from index `start` on makes of `k`: its log takes the messages, and it commits and
      emits all up to the leader's commit index, as far as it has them. */
  ghost predicate InstalledIn(k: Node, m: Node, start: int, es: seq<Message>, leaderCommit: int) {
    var s := Met(k.log, start);
    && WellFormed(m.log) && TookRequest(s, m.log, start, es, k.currentTerm)
    && m.log.commitIndex == Max(s.commitIndex, Min(m.log.nextIndex - 1, leaderCommit))
    && k.commits <= m.commits && |m.commits| == |k.commits| + (m.log.commitIndex - s.commitIndex)
    && (forall i {:trigger i in m.log.entries} :: s.commitIndex < i <= m.log.commitIndex && i in m.log.entries ==>
          m.commits[|k.commits| + (i - s.commitIndex - 1)] == Commit(i, m.log.entries[i].entry))
    && m == k.(log := m.log, commits := m.commits)
  }

  /** The last missing chunk of a request installs it: the log takes its messages, the commit index moves as far
      as the chunk's leader commit and the log allow, every index passed is emitted in order, and the answer names
      the next index. */
  lemma RequestInstalledExactly(n: Node, h: Header, es: seq<Message>, i: int, now: int)
    requires n.role.Follower? && n.currentTerm <= h.term && 0 <= i < |es| && WellFormed(n.log)
    requires Lacks(PendingFor(n, h.requestId), h, es, i)
    ensures var f, start := FollowerOnChunk(n, h.EntryChunk(es, i), now), h.leaderNextIndex - |es|;
      && InstalledIn(Adopting(n, h.EntryChunk(es, i)).(role := Follower(n.role.pending - {h.requestId})),
                     f.node, start, es, h.leaderCommit)
      && f.out == {AppendReply(AppendResponse(
           h.requestId, h.peerId, h.leaderId, h.term, true, f.node.log.nextIndex, true))}
  {
    hide AddChunk, Throws, Lacks, InstalledIn, Install, FollowerOnChunk, PendingFor, WellFormed, Met;
    var c, b := h.EntryChunk(es, i), AddChunk(PendingFor(n, h.requestId), h.EntryChunk(es, i));
    var k, start := Adopting(n, c).(role := Follower(n.role.pending - {h.requestId})), h.leaderNextIndex - |es|;
    LastChunkInstalls(n, h, es, i, now);
    WholeGathered(PendingFor(n, h.requestId), h, es, i);
    InstallExactly(k, b, c, start, es, now);
  }

  lemma LastChunkInstalls(n: Node, h: Header, es: seq<Message>, i: int, now: int)
    requires n.role.Follower? && n.currentTerm <= h.term && 0 <= i < |es|
    requires Lacks(PendingFor(n, h.requestId), h, es, i)
    ensures var c := h.EntryChunk(es, i);
      FollowerOnChunk(n, c, now) ==
      Install(Adopting(n, c).(role := Follower(n.role.pending - {h.requestId})),
              AddChunk(PendingFor(n, h.requestId), c), c, now)
  {
    var c, a := h.EntryChunk(es, i), PendingFor(n, h.requestId);
    WholeGathered(a, h, es, i);
    assert Adopt(n, c) == Adopting(n, c) && PendingFor(Adopt(n, c), c.requestId) == a;
    hide AddChunk, Throws, Gathering, Install;
  }

  lemma WholeGathered(a: Assembler, h: Header, es: seq<Message>, i: int)
    requires 0 <= i < |es| && Lacks(a, h, es, i)
    ensures var b, c := AddChunk(a, h.EntryChunk(es, i)), h.EntryChunk(es, i);
      b.ready && b.entriesList == es && b.leaderNextIndex == h.leaderNextIndex && !Throws(a, c)
  {
    AddGathers(a, h, es, i);
    AddNew(a, h, es, i);
    assert |a.entries[i := es[i]]| == |a.entries| + 1;
    hide AddChunk, Throws;
  }

  lemma MetExactly(s: LogState, start: int)
    ensures GapReset(s, start) == Met(s, start)
    ensures WellFormed(s) ==> WellFormed(Met(s, start)) && start <= Met(s, start).nextIndex
  {
  }

  lemma InstallExactly(k: Node, b: Assembler, c: AppendChunk, start: int, es: seq<Message>, now: int)
    requires WellFormed(k.log) && b.entriesList == es && start == b.leaderNextIndex - |es|
    ensures var f := Install(k, b, c, now);
      && InstalledIn(k, f.node, start, es, c.leaderCommit)
      && f.out == {AppendReply(AppendResponse(
           c.requestId, c.peerId, c.leaderId, c.term, true, f.node.log.nextIndex, true))}
  {
    hide WellFormed, Applied, UpdateCommitIndex, TookRequest, GapReset;
    var s := Met(k.log, start);
    MetExactly(k.log, start);
    var t := Applied(s, start, es, k.currentTerm, now);
    AppliedTakes(s, start, es, k.currentTerm, now);
    var l := k.(log := t);
    FollowerCommitsExactly(l, c.leaderCommit, now);
    var m := UpdateCommitIndex(l, c.leaderCommit, now);
    UpdateCommitFacts(l, c.leaderCommit, now);
    TakenStays(s, t, m.log, start, es, k.currentTerm);
    hide Met;
  }

  // ---------- votes ----------

  /** A follower answers every vote request, and gives its vote exactly to a candidate of a newer term whose last
      index reaches its commit index (an index of 0 counting as none) if it has given none to another one; the
      vote is recorded, and nothing else changes. */
  lemma VoteGivenExactly(c: Cluster, e: Event, q: PeerId, r: VoteRequest)
    requires Enabled(c, e) && e.Deliver? && e.packet == Vote(r) && r.peerId == q && c.nodes[q].role.Follower?
    ensures var n, d := c.nodes[q], Step(c, e);
      var gives := n.currentTerm < r.term && (n.log.commitIndex <= 0 || n.log.commitIndex <= r.lastLogIndex)
                   && (n.votedFor.None? || n.votedFor.value == r.candidateId);
      && d.net == c.net + {VoteReply(VoteResponse(r.term, gives, r.candidateId, q))}
      && d.nodes == c.nodes[q := if gives then n.(votedFor := Some(r.candidateId)) else n]
  {
  }

  /** A candidate becomes leader exactly by a vote for its term from a peer that makes its votes a strict
      majority of the cluster, if its own term is the one right before. */
  lemma WinsExactly(c: Cluster, e: Event, p: PeerId, r: VoteResponse)
    requires FixedMembership(c) && Enabled(c, e) && e.Deliver? && e.packet == VoteReply(r) && r.destinationPeerId == p
    requires c.nodes[p].role.Candidate?
    ensures var n, m := c.nodes[p], Step(c, e).nodes[p];
      var counts := r.sourcePeerId in c.nodes && r.sourcePeerId != p
                    && r.term == n.role.electionTerm && r.voteGranted;
      var wins := counts && |c.nodes.Keys| < |n.role.votes + {r.sourcePeerId}| * 2;
      m == if wins && n.role.electionTerm == n.currentTerm + 1
           then n.(currentTerm := n.role.electionTerm, leaderId := Some(p), role := Leader(map[]))
           else if wins || (r.sourcePeerId in c.nodes && r.sourcePeerId != p && n.role.electionTerm < r.term)
           then n.(role := Follower(map[]))
           else if counts then n.(role := n.role.(votes := n.role.votes + {r.sourcePeerId}))
           else n
  {
    assert c.nodes.Keys == c.nodes[p].peers + {p};
    assert |c.nodes.Keys| == |c.nodes[p].peers| + 1;
    VoteCountedExactly(c.nodes[p], r);
    hide CandidateOnVoteReply, FixedMembership;
  }

  lemma VoteCountedExactly(n: Node, r: VoteResponse)
    requires n.role.Candidate?
    ensures var counts := r.sourcePeerId in n.peers && r.term == n.role.electionTerm && r.voteGranted;
      var wins := counts && |n.peers| + 1 < |n.role.votes + {r.sourcePeerId}| * 2;
      CandidateOnVoteReply(n, r) ==
      if wins && n.role.electionTerm == n.currentTerm + 1
      then n.(currentTerm := n.role.electionTerm, leaderId := Some(n.id), role := Leader(map[]))
      else if wins || (r.sourcePeerId in n.peers && n.role.electionTerm < r.term) then n.(role := Follower(map[]))
      else if counts then n.(role := n.role.(votes := n.role.votes + {r.sourcePeerId}))
      else n
  {
  }

  lemma AskedExactly(n: Node, targets: set<PeerId>, q: Packet)
    requires n.role.Candidate?
    ensures q in RequestsTo(n, targets) <==>
            && q.Vote? && q.request.peerId in targets
            && q.request == VoteRequest(n.role.electionTerm, n.log.nextIndex - 1, n.currentTerm, q.request.peerId, n.id)
  {
    if q in RequestsTo(n, targets) {
      var p :| p in targets
               && q == Vote(VoteRequest(n.role.electionTerm, n.log.nextIndex - 1, n.currentTerm, p, n.id));
    }
  }

  /** A candidate asks each peer once, at its first tick; it gives up on a timeout after that tick, or on a chunk
      of its election term or a later one, and on no other chunk. */
  lemma CandidacyExactly(n: Node, timedOut: bool, x: AppendChunk)
    requires n.role.Candidate?
    ensures var f := CandidateTick(n, timedOut);
      && (forall q :: q in f.out <==>
            && q.Vote? && q.request.peerId in n.peers && q.request.peerId !in n.role.notified
            && q.request == VoteRequest(
                 n.role.electionTerm, n.log.nextIndex - 1, n.currentTerm, q.request.peerId, n.id))
      && f.node == n.(role := if n.role.started && timedOut then Follower(map[])
                              else Candidate(n.role.electionTerm, n.role.votes, n.role.notified + n.peers, true))
    ensures CandidateOnChunk(n, x) == if n.role.electionTerm <= x.term then n.(role := Follower(map[])) else n
  {
    var f := CandidateTick(n, timedOut);
    assert f.out == RequestsTo(n, n.peers - n.role.notified);
    forall q
      ensures q in f.out <==>
        && q.Vote? && q.request.peerId in n.peers && q.request.peerId !in n.role.notified
        && q.request == VoteRequest(n.role.electionTerm, n.log.nextIndex - 1, n.currentTerm, q.request.peerId, n.id)
    {
      AskedExactly(n, n.peers - n.role.notified, q);
    }
  }

  /** A follower stands for the next term, with its own vote, exactly when its time is up, it is not alone and
      it may lead; when its time is up it forgets leader and vote in any case. */
  lemma StandsExactly(n: Node, timedOut: bool)
    requires n.role.Follower?
    ensures var m := FollowerTick(n, timedOut);
      && (m.role.Candidate? <==> timedOut && n.peers != {} && !n.config.onlyFollower)
      && (m.role.Candidate? ==> m.role == Candidate(n.currentTerm + 1, {n.id}, {}, false))
      && (!m.role.Candidate? ==> m.role == n.role)
      && m == n.(role := m.role, leaderId := if timedOut then None else n.leaderId,
                 votedFor := if timedOut then None else n.votedFor)
  {
  }
}
