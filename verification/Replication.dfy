/**
 Runs without expiry, over any number of terms: logs have no holes, requests never start beyond
 their receiver's log, so no follower ever drops its log, and commits come one index at a time.
 */
module Replication {
  import opened Messages
  import opened RaftLogs
  import opened AppendEntriesRequests
  import opened RaftNode
  import opened Cluster
  import opened Elections
  import opened Agreement

  /** Exactly the indices below the next index are stored. */
  ghost predicate Complete(s: LogState) {
    && WellFormed(s) && 0 <= s.nextIndex
    && (forall k :: k in s.entries <==> 0 <= k < s.nextIndex)
  }

  /** The commits handed out so far are the indices 0, 1, ..., commitIndex. */
  ghost predicate InOrder(commits: seq<Commit>, commitIndex: int) {
    |commits| == commitIndex + 1 && forall i :: 0 <= i < |commits| ==> commits[i].index == i
  }

  ghost predicate NeverExpires(c: Cluster) {
    forall p :: p in c.nodes ==> c.nodes[p].config.expirationTimeInMs < 1
  }

  ghost predicate LogSound(s: LogState, commits: seq<Commit>) {
    Complete(s) && InOrder(commits, s.commitIndex)
  }

  ghost predicate NodeSound(n: Node, hist: History) {
    n.config.expirationTimeInMs < 1 && LogSound(n.log, n.commits) && PendingOk(n.role, hist)
  }

  /** What a peer has on record about the others is never beyond their logs. */
  ghost predicate NextOk(nodes: map<PeerId, Node>, nexts: map<PeerId, int>) {
    forall q :: q in nexts ==> q in nodes && 0 <= nexts[q] <= nodes[q].log.nextIndex
  }

  ghost predicate MatchOk(nodes: map<PeerId, Node>, matches: map<PeerId, int>) {
    forall q :: q in matches ==> q in nodes && matches[q] < nodes[q].log.nextIndex
  }

  ghost predicate ReplyOk(nodes: map<PeerId, Node>, r: AppendResponse) {
    r.success && r.processed ==>
      r.sourcePeerId in nodes && 0 <= r.peerNextIndex <= nodes[r.sourcePeerId].log.nextIndex
  }

  ghost predicate StartOk(nodes: map<PeerId, Node>, nextId: RequestId, id: RequestId, r: Request) {
    && id < nextId && r.h.requestId == id && r.es != [] && r.h.peerId in nodes
    && 0 <= r.h.leaderNextIndex - |r.es| <= nodes[r.h.peerId].log.nextIndex
  }

  ghost predicate NodesSound(c: Cluster, hist: History) {
    forall p :: p in c.nodes ==> NodeSound(c.nodes[p], hist)
  }

  ghost predicate AllRecordsOk(c: Cluster) {
    forall p :: p in c.nodes ==> NextOk(c.nodes, c.nodes[p].nextIndexes) && MatchOk(c.nodes, c.nodes[p].matchIndexes)
  }

  ghost predicate RepliesOk(c: Cluster) {
    forall r :: AppendReply(r) in c.net ==> ReplyOk(c.nodes, r)
  }

  ghost predicate StartsOk(c: Cluster, hist: History) {
    forall id :: id in hist.requests ==> StartOk(c.nodes, c.nextId, id, hist.requests[id])
  }

  ghost predicate SafeInv(c: Cluster, hist: History) {
    && FixedMembership(c) && NodesSound(c, hist) && AllRecordsOk(c)
    && RepliesOk(c) && StartsOk(c, hist) && ChunksKnown(c, hist)
  }

  // ---------- one peer ----------

  lemma CompleteClosed(s: LogState, start: int)
    requires Complete(s) && 0 <= start
    ensures ClosedUpward(s.entries, start, s.nextIndex)
    ensures |Collect(s.entries, start, s.nextIndex)| == Max(0, s.nextIndex - start)
  {
    if start <= s.nextIndex {
      CollectFull(s.entries, start, s.nextIndex);
    }
  }

  lemma EmittedAt(s: LogState, commits: seq<Commit>, upTo: int, i: int)
    requires LogSound(s, commits) && s.commitIndex < upTo < s.nextIndex && |commits| <= i <= upTo
    ensures |NewlyCommitted(s, upTo)| == upTo + 1 - |commits|
    ensures i in s.entries && CommitsOf(NewlyCommitted(s, upTo))[i - |commits|] == Commit(i, s.entries[i].entry)
  {
    CommitHandsOutAll(s, upTo);
    hide NewlyCommitted, CommitsOf;
    var e := NewlyCommitted(s, upTo)[i - |commits|];
    assert s.commitIndex + 1 + (i - |commits|) == i;
  }

  lemma EmittedByCommit(s: LogState, commits: seq<Commit>, upTo: int)
    requires LogSound(s, commits) && s.commitIndex < upTo < s.nextIndex
    ensures var all := commits + CommitsOf(NewlyCommitted(s, upTo));
      && InOrder(all, upTo) && commits <= all
      && (forall i :: |commits| <= i < |all| ==> i in s.entries && all[i] == Commit(i, s.entries[i].entry))
  {
    hide NewlyCommitted, CommitsOf, Complete;
    EmittedAt(s, commits, upTo, upTo);
    var all := commits + CommitsOf(NewlyCommitted(s, upTo));
    forall i | |commits| <= i < |all|
      ensures i in s.entries && all[i] == Commit(i, s.entries[i].entry)
    {
      EmittedAt(s, commits, upTo, i);
    }
  }

  lemma LogAfterCommit(s: LogState, commits: seq<Commit>, upTo: int, expirationTimeInMs: int, now: int)
    requires LogSound(s, commits) && s.commitIndex < upTo < s.nextIndex && expirationTimeInMs < 1
    ensures var t := CommitUntil(s, upTo, expirationTimeInMs, now); t == s.(commitIndex := upTo) && Complete(t)
  {
    CommitKeeps(s, upTo, expirationTimeInMs, now);
  }

  lemma CommitSound(n: Node, upTo: int, now: int, hist: History)
    requires NodeSound(n, hist) && n.log.commitIndex < upTo < n.log.nextIndex
    ensures var m := CommitLog(n, upTo, now);
      && NodeSound(m, hist) && m.log == n.log.(commitIndex := upTo)
      && n.commits <= m.commits
      && (forall i :: |n.commits| <= i < |m.commits| ==>
            i in n.log.entries && m.commits[i] == Commit(i, n.log.entries[i].entry))
  {
    EmittedByCommit(n.log, n.commits, upTo);
    LogAfterCommit(n.log, n.commits, upTo, n.config.expirationTimeInMs, now);
    hide CommitUntil, NewlyCommitted, Complete, CommitsOf;
  }

  lemma UpdateCommitSound(n: Node, leaderCommit: int, now: int, hist: History)
    requires NodeSound(n, hist)
    ensures var m := UpdateCommitIndex(n, leaderCommit, now);
      && NodeSound(m, hist) && m == n.(log := m.log, commits := m.commits)
      && m.log.nextIndex == n.log.nextIndex && m.log.entries == n.log.entries
      && m.log.commitIndex == Max(n.log.commitIndex, Min(n.log.nextIndex - 1, leaderCommit))
      && n.commits <= m.commits
      && (forall i :: |n.commits| <= i < |m.commits| ==>
            i in m.log.entries && m.commits[i] == Commit(i, m.log.entries[i].entry))
  {
    if !(leaderCommit <= n.log.commitIndex || Min(n.log.nextIndex - 1, leaderCommit) <= n.log.commitIndex) {
      CommitSound(n, Min(n.log.nextIndex - 1, leaderCommit), now, hist);
    }
  }

  lemma AppliedSound(s: LogState, commits: seq<Commit>, start: int, es: seq<Message>, term: int, now: int)
    requires LogSound(s, commits) && 0 <= start <= s.nextIndex
    ensures GapReset(s, start) == s
    ensures var t := Applied(s, start, es, term, now); LogSound(t, commits) && s.nextIndex <= t.nextIndex
  {
    ApplyLoopTotal(s, start, es, term, now);
  }

  lemma InstalledCommitSound(n: Node, log: LogState, leaderCommit: int, now: int, hist: History)
    requires NodeSound(n, hist) && LogSound(log, n.commits)
    ensures var m := UpdateCommitIndex(n.(log := log), leaderCommit, now);
      NodeSound(m, hist) && m == n.(log := m.log, commits := m.commits) && m.log.nextIndex == log.nextIndex
  {
    UpdateCommitSound(n.(log := log), leaderCommit, now, hist);
  }

  /** The reply a chunk gets, if it claims success, names the next index of the responder. */
  ghost predicate HonestReplies(n: Node, out: set<Packet>) {
    forall x :: x in out ==> x.AppendReply? && HonestReply(n, x.response)
  }

  ghost predicate HonestReply(n: Node, r: AppendResponse) {
    r.success && r.processed ==> r.sourcePeerId == n.id && r.peerNextIndex == n.log.nextIndex
  }

  lemma InstallSound(n: Node, a: Assembler, c: AppendChunk, now: int, hist: History)
    requires NodeSound(n, hist) && 0 <= a.leaderNextIndex - |a.entriesList| <= n.log.nextIndex && c.peerId == n.id
    ensures var f := Install(n, a, c, now);
      NodeSound(f.node, hist) && n.log.nextIndex <= f.node.log.nextIndex && HonestReplies(f.node, f.out)
  {
    var start := a.leaderNextIndex - |a.entriesList|;
    var log := Applied(GapReset(n.log, start), start, a.entriesList, n.currentTerm, now);
    AppliedSound(n.log, n.commits, start, a.entriesList, n.currentTerm, now);
    InstalledSound(n, log, a, c, now, hist);
  }

  lemma InstalledSound(n: Node, log: LogState, a: Assembler, c: AppendChunk, now: int, hist: History)
    requires NodeSound(n, hist) && LogSound(log, n.commits) && n.log.nextIndex <= log.nextIndex && c.peerId == n.id
    requires var start := a.leaderNextIndex - |a.entriesList|;
      log == Applied(GapReset(n.log, start), start, a.entriesList, n.currentTerm, now)
    ensures var f := Install(n, a, c, now);
      NodeSound(f.node, hist) && n.log.nextIndex <= f.node.log.nextIndex && HonestReplies(f.node, f.out)
  {
    hide Applied, GapReset, UpdateCommitIndex, LogSound;
    InstalledCommitSound(n, log, c.leaderCommit, now, hist);
  }

  lemma EntryChunkSound(n: Node, c: AppendChunk, now: int, hist: History)
    requires n.role.Follower? && NodeSound(n, hist) && ChunkOk(c, hist) && c.entry.Some? && c.peerId == n.id
    requires hist.requests[c.requestId].h.requestId == c.requestId
    requires var r := hist.requests[c.requestId]; 0 <= r.h.leaderNextIndex - |r.es| <= n.log.nextIndex
    ensures var f := FollowerOnEntryChunk(n, c, now);
      NodeSound(f.node, hist) && n.log.nextIndex <= f.node.log.nextIndex && HonestReplies(f.node, f.out)
  {
    var r := hist.requests[c.requestId];
    var before := PendingFor(n, c.requestId);
    if c.requestId !in n.role.pending {
      NewGathers(r.h, r.es);
    } else {
      assert AssemblerOk(c.requestId, before, hist);
    }
    AssemblerStep(before, c, r);
    EntryChunkSoundEffect(n, c, AddChunk(before, c), r, now, hist);
  }

  lemma RestPendingSound(n: Node, id: RequestId, hist: History)
    requires n.role.Follower? && NodeSound(n, hist)
    ensures NodeSound(n.(role := Follower(n.role.pending - {id})), hist)
  {
    var pending := n.role.pending - {id};
    assert forall x :: x in pending ==> AssemblerOk(x, pending[x], hist);
  }

  lemma PendingPutSound(n: Node, id: RequestId, a: Assembler, hist: History)
    requires n.role.Follower? && NodeSound(n, hist) && AssemblerOk(id, a, hist)
    ensures NodeSound(n.(role := Follower(n.role.pending[id := a])), hist)
  {
    var pending := n.role.pending[id := a];
    assert forall x :: x in pending ==> AssemblerOk(x, pending[x], hist);
  }

  lemma EntryChunkSoundEffect(n: Node, c: AppendChunk, a: Assembler, r: Request, now: int, hist: History)
    requires n.role.Follower? && NodeSound(n, hist) && a == AddChunk(PendingFor(n, c.requestId), c) && c.peerId == n.id
    requires c.requestId in hist.requests && hist.requests[c.requestId] == r
    requires Gathering(a, r.h, r.es) && (Throws(PendingFor(n, c.requestId), c) ==> !a.ready)
    requires a.ready ==> a.entriesList == r.es && a.leaderNextIndex == r.h.leaderNextIndex
    requires 0 <= r.h.leaderNextIndex - |r.es| <= n.log.nextIndex
    ensures var f := FollowerOnEntryChunk(n, c, now);
      NodeSound(f.node, hist) && n.log.nextIndex <= f.node.log.nextIndex && HonestReplies(f.node, f.out)
  {
    hide AddChunk, Throws, Install, Gathering, LogSound, NodeSound;
    if !a.ready {
      PendingPutSound(n, c.requestId, a, hist);
    } else {
      RestPendingSound(n, c.requestId, hist);
      InstallSound(n.(role := Follower(n.role.pending - {c.requestId})), a, c, now, hist);
    }
  }

  lemma FollowerChunkSound(n: Node, c: AppendChunk, now: int, hist: History)
    requires n.role.Follower? && NodeSound(n, hist) && ChunkOk(c, hist) && c.peerId == n.id
    requires c.entry.Some? ==> var r := hist.requests[c.requestId];
      r.h.requestId == c.requestId && 0 <= r.h.leaderNextIndex - |r.es| <= n.log.nextIndex
    ensures var f := FollowerOnChunk(n, c, now);
      NodeSound(f.node, hist) && n.log.nextIndex <= f.node.log.nextIndex && HonestReplies(f.node, f.out)
  {
    var m := Adopt(n, c);
    if n.currentTerm <= c.term {
      if IsKeepAlive(c) {
        UpdateCommitSound(m, c.leaderCommit, now, hist);
      } else {
        EntryChunkSound(m, c, now, hist);
      }
    }
  }

  lemma FollowerRecords(n: Node, c: AppendChunk, now: int)
    requires n.role.Follower?
    ensures var m := FollowerOnChunk(n, c, now).node;
      m.nextIndexes == n.nextIndexes && m.matchIndexes == n.matchIndexes
  {
    hide FollowerOnEntryChunk, UpdateCommitIndex;
    var m := Adopt(n, c);
    EntryChunkRecords(m, c, now);
    UpdateCommitFacts(m, c.leaderCommit, now);
  }

  lemma EntryChunkRecords(n: Node, c: AppendChunk, now: int)
    requires n.role.Follower?
    ensures var m := FollowerOnEntryChunk(n, c, now).node;
      m.nextIndexes == n.nextIndexes && m.matchIndexes == n.matchIndexes
  {
    hide AddChunk, Throws, Install, WellFormed;
    var a := AddChunk(PendingFor(n, c.requestId), c);
    InstallFacts(n.(role := Follower(n.role.pending - {c.requestId})), a, c, now);
  }

  ghost predicate Recorded(n: Node, m: Node, r: AppendResponse) {
    && r.success && r.processed
    && m.nextIndexes == n.nextIndexes[r.sourcePeerId := r.peerNextIndex]
    && m.matchIndexes == n.matchIndexes[r.sourcePeerId := r.peerNextIndex - 1]
  }

  lemma LeaderCommitSound(m: Node, hi: int, now: int, hist: History)
    requires NodeSound(m, hist) && hi <= m.log.nextIndex
    ensures var target := BestCommit(m, hi);
      var k := if 0 <= target then CommitLog(m, target, now) else m;
      NodeSound(k, hist) && k == m.(log := k.log, commits := k.commits) && k.log.nextIndex == m.log.nextIndex
  {
    BestCommitIsGreatest(m, hi);
    if 0 <= BestCommit(m, hi) {
      CommitSound(m, BestCommit(m, hi), now, hist);
    }
  }

  lemma LeaderReplySound(n: Node, r: AppendResponse, now: int, hist: History)
    requires n.role.Leader? && NodeSound(n, hist)
    ensures var m := LeaderOnReply(n, r, now);
      && NodeSound(m, hist) && m.log.nextIndex == n.log.nextIndex
      && ((m.nextIndexes == n.nextIndexes && m.matchIndexes == n.matchIndexes) || Recorded(n, m, r))
  {
    var m := RecordReply(n, r);
    assert NodeSound(m, hist);
    LeaderCommitSound(m, Min(m.log.nextIndex, r.peerNextIndex), now, hist);
  }

  // ---------- one step ----------

  /** What a step must do at its actor for the invariant to hold afterwards. */
  ghost predicate ActorSound(nodes: map<PeerId, Node>, n: Node, f: Effect, hist: History) {
    && NodeSound(f.node, hist) && n.log.nextIndex <= f.node.log.nextIndex
    && NextOk(nodes, f.node.nextIndexes) && MatchOk(nodes, f.node.matchIndexes)
    && f.node.id == n.id && forall r :: AppendReply(r) in f.out ==> HonestReply(f.node, r)
  }

  lemma TickSound(nodes: map<PeerId, Node>, n: Node, timedOut: bool, hist: History)
    requires NodeSound(n, hist) && NextOk(nodes, n.nextIndexes) && MatchOk(nodes, n.matchIndexes)
    ensures ActorSound(nodes, n, TickNode(n, timedOut), hist)
  {
    hide Complete, InOrder, AssemblerOk;
  }

  lemma ProposeSound(nodes: map<PeerId, Node>, n: Node, m: Message, now: int, hist: History)
    requires NodeSound(n, hist) && NextOk(nodes, n.nextIndexes) && MatchOk(nodes, n.matchIndexes)
    ensures ActorSound(nodes, n, Effect(SubmitTo(n, m, now), {}), hist)
  {
    SubmitKeeps(n.log, n.currentTerm, m, now);
  }

  lemma FollowerSound(nodes: map<PeerId, Node>, n: Node, x: AppendChunk, now: int, hist: History)
    requires NodeSound(n, hist) && NextOk(nodes, n.nextIndexes) && MatchOk(nodes, n.matchIndexes)
    requires n.role.Follower? && ChunkOk(x, hist) && x.peerId == n.id
    requires x.entry.Some? ==> var r := hist.requests[x.requestId];
      r.h.requestId == x.requestId && 0 <= r.h.leaderNextIndex - |r.es| <= n.log.nextIndex
    ensures ActorSound(nodes, n, FollowerOnChunk(n, x, now), hist)
  {
    FollowerChunkSound(n, x, now, hist);
    FollowerRecords(n, x, now);
  }

  lemma LeaderSound(nodes: map<PeerId, Node>, n: Node, r: AppendResponse, now: int, hist: History)
    requires NodeSound(n, hist) && NextOk(nodes, n.nextIndexes) && MatchOk(nodes, n.matchIndexes)
    requires n.role.Leader? && ReplyOk(nodes, r)
    ensures ActorSound(nodes, n, Effect(LeaderOnReply(n, r, now), {}), hist)
  {
    LeaderReplySound(n, r, now, hist);
  }

  lemma OtherDeliverySound(nodes: map<PeerId, Node>, n: Node, packet: Packet, now: int, hist: History)
    requires NodeSound(n, hist) && NextOk(nodes, n.nextIndexes) && MatchOk(nodes, n.matchIndexes)
    requires !(n.role.Follower? && packet.Append?) && !(n.role.Leader? && packet.AppendReply?)
    ensures ActorSound(nodes, n, Receive(n, packet, now), hist)
  {
    hide FollowerOnChunk, LeaderOnReply, Complete, InOrder, AssemblerOk;
  }

  lemma DeliverSound(c: Cluster, e: Event, hist: History)
    requires SafeInv(c, hist) && Enabled(c, e) && e.Deliver?
    ensures ActorSound(c.nodes, c.nodes[Actor(e)], EffectOf(c, e), hist)
  {
    var n := c.nodes[Actor(e)];
    if n.role.Follower? && e.packet.Append? {
      var x := e.packet.chunk;
      assert ChunkOk(x, hist);
      if x.entry.Some? {
        assert StartOk(c.nodes, c.nextId, x.requestId, hist.requests[x.requestId]);
      }
      FollowerSound(c.nodes, n, x, e.now, hist);
    } else if n.role.Leader? && e.packet.AppendReply? {
      LeaderSound(c.nodes, n, e.packet.response, e.now, hist);
    } else {
      OtherDeliverySound(c.nodes, n, e.packet, e.now, hist);
    }
  }

  /** The request a heartbeat sends, if it sends entries. */
  ghost function RequestOf(n: Node, to: PeerId, id: RequestId): Request {
    Request(HeaderFor(n, to, id), MessagesOf(Collect(n.log.entries, NextIndex(n, to), n.log.nextIndex)))
  }

  lemma SendSound(nodes: map<PeerId, Node>, n: Node, to: PeerId, now: int, id: RequestId, hist: History)
    requires NodeSound(n, hist) && NextOk(nodes, n.nextIndexes) && MatchOk(nodes, n.matchIndexes)
    requires n.role.Leader?
    ensures ActorSound(nodes, n, LeaderSend(n, to, now, id), hist)
    ensures LeaderSend(n, to, now, id).node.log == n.log
  {
  }

  lemma SentChunksOk(n: Node, to: PeerId, now: int, id: RequestId, hist: History)
    requires n.role.Leader?
    requires id in hist.requests && hist.requests[id] == RequestOf(n, to, id)
    ensures forall x :: Append(x) in LeaderSend(n, to, now, id).out ==> ChunkOk(x, hist)
  {
  }

  /** Without a hole a request starts exactly at the index on record for its receiver. */
  lemma RequestStartsAtRecord(n: Node, to: PeerId, id: RequestId, hist: History)
    requires NodeSound(n, hist) && 0 <= NextIndex(n, to)
    ensures var r := RequestOf(n, to, id);
      r.es != [] ==> r.h.leaderNextIndex - |r.es| == NextIndex(n, to)
    ensures ClosedUpward(n.log.entries, NextIndex(n, to), n.log.nextIndex)
  {
    CompleteClosed(n.log, NextIndex(n, to));
  }

  lemma HeartbeatSound(c: Cluster, e: Event, hist: History) returns (hist': History)
    requires SafeInv(c, hist) && Enabled(c, e) && e.Heartbeat?
    ensures Grows(hist, hist') && ActorSound(c.nodes, c.nodes[e.peer], EffectOf(c, e), hist')
    ensures hist'.messages == hist.messages
    ensures forall id :: id in hist'.requests ==>
              id in hist.requests || (id == c.nextId && StartOk(c.nodes, c.nextId + 1, id, hist'.requests[id]))
    ensures forall x :: Append(x) in EffectOf(c, e).out ==> ChunkOk(x, hist')
    ensures var n := c.nodes[e.peer]; ClosedUpward(n.log.entries, NextIndex(n, e.to), n.log.nextIndex)
    ensures c.nextId in hist'.requests ==> hist'.requests[c.nextId] == RequestOf(c.nodes[e.peer], e.to, c.nextId)
  {
    var n := c.nodes[e.peer];
    HeartbeatStart(c, e, hist);
    FreshId(c, hist);
    hide *;
    hist' := RequestRecorded(c.nodes, n, e.to, e.now, c.nextId, hist);
  }

  /** The history with the request a leader sends, if it sends entries. */
  lemma RequestRecorded(nodes: map<PeerId, Node>, n: Node, to: PeerId, now: int, id: RequestId, hist: History)
    returns (hist': History)
    requires n.role.Leader? && NodeSound(n, hist) && NextOk(nodes, n.nextIndexes) && MatchOk(nodes, n.matchIndexes)
    requires id !in hist.requests
    requires RequestOf(n, to, id).es != [] ==> StartOk(nodes, id + 1, id, RequestOf(n, to, id))
    ensures Grows(hist, hist') && ActorSound(nodes, n, LeaderSend(n, to, now, id), hist')
    ensures hist'.messages == hist.messages
    ensures forall x :: x in hist'.requests ==>
              x in hist.requests || (x == id && StartOk(nodes, id + 1, x, hist'.requests[x]))
    ensures forall x :: Append(x) in LeaderSend(n, to, now, id).out ==> ChunkOk(x, hist')
    ensures id in hist'.requests ==> hist'.requests[id] == RequestOf(n, to, id)
  {
    hide NodeSound, RequestOf, StartOk, NextOk, MatchOk, ChunkOk, ActorSound, LeaderSend;
    var r := RequestOf(n, to, id);
    if r.es == [] {
      hist' := hist;
      NothingSentOk(n, to, now, id, hist);
      SendSound(nodes, n, to, now, id, hist);
    } else {
      hist' := hist.(requests := hist.requests[id := r]);
      assert Grows(hist, hist');
      NodeSoundGrows(n, hist, hist');
      SentChunksOk(n, to, now, id, hist');
      SendSound(nodes, n, to, now, id, hist');
    }
  }

  lemma NodeSoundGrows(n: Node, a: History, b: History)
    requires NodeSound(n, a) && Grows(a, b)
    ensures NodeSound(n, b)
  {
    PendingGrows(n.role, a, b);
  }

  lemma NothingSentOk(n: Node, to: PeerId, now: int, id: RequestId, hist: History)
    requires n.role.Leader? && RequestOf(n, to, id).es == []
    ensures forall x :: Append(x) in LeaderSend(n, to, now, id).out ==> ChunkOk(x, hist)
  {
  }

  /** The request a heartbeat sends, if any, starts where its receiver's log may take it. */
  lemma HeartbeatStart(c: Cluster, e: Event, hist: History)
    requires SafeInv(c, hist) && Enabled(c, e) && e.Heartbeat?
    ensures e.peer in c.nodes && c.nodes[e.peer].role.Leader?
    ensures var n := c.nodes[e.peer];
      var r := RequestOf(n, e.to, c.nextId);
      && EffectOf(c, e) == LeaderSend(n, e.to, e.now, c.nextId)
      && NodeSound(n, hist) && NextOk(c.nodes, n.nextIndexes) && MatchOk(c.nodes, n.matchIndexes)
      && ClosedUpward(n.log.entries, NextIndex(n, e.to), n.log.nextIndex)
      && (r.es != [] ==> StartOk(c.nodes, c.nextId + 1, c.nextId, r))
  {
    var n := c.nodes[e.peer];
    assert NodeSound(n, hist) && NextOk(c.nodes, n.nextIndexes);
    assert NodeSound(c.nodes[e.to], hist);
    RequestStartsAtRecord(n, e.to, c.nextId, hist);
    hide Collect, ClosedUpward;
  }

  lemma FreshId(c: Cluster, hist: History)
    requires SafeInv(c, hist)
    ensures c.nextId !in hist.requests
  {
    assert StartsOk(c, hist);
    assert forall id :: id in hist.requests ==> id < c.nextId;
  }

  /** Logs only grow at the top, so what was on record stays within them. */
  ghost predicate Longer(a: map<PeerId, Node>, b: map<PeerId, Node>) {
    forall p :: p in a ==> p in b && a[p].log.nextIndex <= b[p].log.nextIndex
  }

  lemma RecordsGrow(a: map<PeerId, Node>, b: map<PeerId, Node>, n: Node)
    requires NextOk(a, n.nextIndexes) && MatchOk(a, n.matchIndexes) && Longer(a, b)
    ensures NextOk(b, n.nextIndexes) && MatchOk(b, n.matchIndexes)
  {
  }

  lemma AssembleRecords(c: Cluster, e: Event, hist: History)
    requires AllRecordsOk(c) && Enabled(c, e) && ActorSound(c.nodes, c.nodes[Actor(e)], EffectOf(c, e), hist)
    ensures Longer(c.nodes, Step(c, e).nodes)
    ensures AllRecordsOk(Step(c, e))
  {
    hide EffectOf, NodeSound, HonestReply, NextOk, MatchOk;
    var d := Step(c, e);
    assert Longer(c.nodes, d.nodes);
    forall p | p in d.nodes
      ensures NextOk(d.nodes, d.nodes[p].nextIndexes) && MatchOk(d.nodes, d.nodes[p].matchIndexes)
    {
      RecordsGrow(c.nodes, d.nodes, d.nodes[p]);
    }
  }

  lemma AssembleNodes(c: Cluster, e: Event, hist: History, hist': History)
    requires NodesSound(c, hist) && Grows(hist, hist') && Enabled(c, e) && NodeSound(EffectOf(c, e).node, hist')
    ensures NodesSound(Step(c, e), hist')
  {
    forall p | p in Step(c, e).nodes
      ensures NodeSound(Step(c, e).nodes[p], hist')
    {
      if p != Actor(e) {
        assert NodeSound(c.nodes[p], hist);
        PendingGrows(c.nodes[p].role, hist, hist');
      }
    }
  }

  lemma PendingGrows(role: Role, a: History, b: History)
    requires PendingOk(role, a) && Grows(a, b)
    ensures PendingOk(role, b)
  {
  }

  lemma AssembleReplies(c: Cluster, e: Event, hist: History)
    requires FixedMembership(c) && RepliesOk(c) && Enabled(c, e)
    requires ActorSound(c.nodes, c.nodes[Actor(e)], EffectOf(c, e), hist)
    requires Longer(c.nodes, Step(c, e).nodes)
    ensures RepliesOk(Step(c, e))
  {
    var d := Step(c, e);
    forall r | AppendReply(r) in d.net
      ensures ReplyOk(d.nodes, r)
    {
      if AppendReply(r) in c.net {
        assert ReplyOk(c.nodes, r);
      } else {
        assert AppendReply(r) in EffectOf(c, e).out;
      }
    }
  }

  lemma AssembleSafe(c: Cluster, e: Event, hist: History, hist': History)
    requires SafeInv(c, hist) && Enabled(c, e) && Grows(hist, hist')
    requires ActorSound(c.nodes, c.nodes[Actor(e)], EffectOf(c, e), hist')
    requires forall id :: id in hist'.requests ==>
               id in hist.requests || (id == c.nextId && StartOk(c.nodes, Step(c, e).nextId, id, hist'.requests[id]))
    requires forall x :: Append(x) in EffectOf(c, e).out ==> ChunkOk(x, hist')
    ensures SafeInv(Step(c, e), hist')
  {
    StepMembership(c, e);
    AssembleNodes(c, e, hist, hist');
    AssembleRecords(c, e, hist');
    AssembleReplies(c, e, hist');
    var d := Step(c, e);
    forall id | id in hist'.requests
      ensures StartOk(d.nodes, d.nextId, id, hist'.requests[id])
    {
      if id in hist.requests {
        assert StartOk(c.nodes, c.nextId, id, hist.requests[id]);
      }
    }
    forall x | Append(x) in d.net
      ensures ChunkOk(x, hist')
    {
      if Append(x) in c.net {
        ChunkOkGrows(x, hist, hist');
      }
    }
  }

  lemma StepKeepsSafe(c: Cluster, e: Event, hist: History) returns (hist': History)
    requires SafeInv(c, hist)
    ensures SafeInv(Step(c, e), hist') && Grows(hist, hist') && hist'.messages == hist.messages
    ensures forall id :: id in hist'.requests && id !in hist.requests ==>
              && Enabled(c, e) && e.Heartbeat? && id == c.nextId
              && hist'.requests[id] == RequestOf(c.nodes[e.peer], e.to, id)
  {
    hist' := hist;
    if Enabled(c, e) {
      assert NodeSound(c.nodes[Actor(e)], hist);
      if e.Heartbeat? {
        hist' := HeartbeatSound(c, e, hist);
      } else {
        match e {
          case Deliver(_, _) => DeliverSound(c, e, hist);
          case Tick(p, timedOut) => TickSound(c.nodes, c.nodes[p], timedOut, hist);
          case Propose(p, m, now) => ProposeSound(c.nodes, c.nodes[p], m, now, hist);
        }
        QuietSends(c, e);
      }
      AssembleSafe(c, e, hist, hist');
    }
  }

  // ---------- runs ----------

  lemma {:induction false} RunKeepsSafe(tr: seq<Cluster>, es: seq<Event>, j: nat) returns (hist: History)
    requires IsRun(tr, es) && Fresh(tr[0]) && NeverExpires(tr[0]) && j < |tr|
    ensures SafeInv(tr[j], hist)
  {
    if j == 0 {
      hist := History(map[], map[]);
    } else {
      var before := RunKeepsSafe(tr, es, j - 1);
      hist := StepKeepsSafe(tr[j - 1], es[j - 1], before);
    }
  }

  /** No hole and no lost commit: in every run without expiry, through any elections, each peer stores
      exactly the indices below its next index and has emitted the commits 0, 1, ..., commitIndex. */
  lemma LogsStayComplete(tr: seq<Cluster>, es: seq<Event>, j: nat, p: PeerId)
    requires IsRun(tr, es) && Fresh(tr[0]) && NeverExpires(tr[0]) && j < |tr| && p in tr[j].nodes
    ensures LogSound(tr[j].nodes[p].log, tr[j].nodes[p].commits)
  {
    var hist := RunKeepsSafe(tr, es, j);
    assert NodeSound(tr[j].nodes[p], hist);
  }

  /** What a leader has on record never runs ahead of a peer, though late replies may lower it. */
  lemma MatchIndexIsBelowNextIndex(tr: seq<Cluster>, es: seq<Event>, j: nat, p: PeerId, q: PeerId)
    requires IsRun(tr, es) && Fresh(tr[0]) && NeverExpires(tr[0]) && j < |tr| && p in tr[j].nodes
    requires q in tr[j].nodes[p].matchIndexes
    ensures q in tr[j].nodes && tr[j].nodes[p].matchIndexes[q] < tr[j].nodes[q].log.nextIndex
  {
    var hist := RunKeepsSafe(tr, es, j);
    assert MatchOk(tr[j].nodes, tr[j].nodes[p].matchIndexes);
  }

  /** The gap reset is unreachable without expiry: a request that becomes complete at a follower
      starts at or below the follower's next index. */
  lemma GapResetUnreachable(tr: seq<Cluster>, es: seq<Event>, j: nat)
    requires IsRun(tr, es) && Fresh(tr[0]) && NeverExpires(tr[0]) && j < |es|
    requires Enabled(tr[j], es[j]) && es[j].Deliver? && es[j].packet.Append?
    requires tr[j].nodes[Actor(es[j])].role.Follower? && !IsKeepAlive(es[j].packet.chunk)
    ensures var n, c := tr[j].nodes[Actor(es[j])], es[j].packet.chunk;
      var a := AddChunk(PendingFor(n, c.requestId), c);
      a.ready ==> GapReset(n.log, a.leaderNextIndex - |a.entriesList|) == n.log
  {
    var hist := RunKeepsSafe(tr, es, j);
    var n, c := tr[j].nodes[Actor(es[j])], es[j].packet.chunk;
    assert ChunkOk(c, hist) && NodeSound(n, hist);
    var r := hist.requests[c.requestId];
    assert StartOk(tr[j].nodes, tr[j].nextId, c.requestId, r);
    var before := PendingFor(n, c.requestId);
    if c.requestId !in n.role.pending {
      NewGathers(r.h, r.es);
    } else {
      assert AssemblerOk(c.requestId, before, hist);
    }
    AssemblerStep(before, c, r);
  }

  lemma NoExpirySendsWithoutHoles(tr: seq<Cluster>, es: seq<Event>)
    requires IsRun(tr, es) && Fresh(tr[0]) && NeverExpires(tr[0])
    ensures SendsWithoutHoles(tr, es)
  {
    forall i | 0 <= i < |es| && Enabled(tr[i], es[i]) && es[i].Heartbeat?
      ensures var n := tr[i].nodes[es[i].peer];
        ClosedUpward(n.log.entries, NextIndex(n, es[i].to), n.log.nextIndex)
    {
      var hist := RunKeepsSafe(tr, es, i);
      var hist' := HeartbeatSound(tr[i], es[i], hist);
    }
  }

  /** Without expiry the condition on the voters is all that agreement needs. */
  lemma RunsWithoutExpiryAgree(tr: seq<Cluster>, es: seq<Event>, i: nat, j: nat, p: PeerId, q: PeerId, k: int)
    requires IsRun(tr, es) && Fresh(tr[0]) && NeverExpires(tr[0]) && Faithful(tr)
    requires i < |tr| && j < |tr| && p in tr[i].nodes && q in tr[j].nodes
    requires k in tr[i].nodes[p].log.entries && k in tr[j].nodes[q].log.entries
    requires tr[i].nodes[p].log.entries[k].term == tr[j].nodes[q].log.entries[k].term
    ensures tr[i].nodes[p].log.entries[k].entry == tr[j].nodes[q].log.entries[k].entry
  {
    NoExpirySendsWithoutHoles(tr, es);
    FaithfulRunsAgree(tr, es, i, j, p, q, k);
  }
}
