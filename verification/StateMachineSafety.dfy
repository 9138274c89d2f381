/**
 One leader's term without expiry: followers copy the leader's log, nothing is committed ahead of
 the leader, every commit of the leader rests on a majority, and all peers emit one sequence.
 */
module StateMachineSafety {
  import opened Messages
  import opened RaftLogs
  import opened AppendEntriesRequests
  import opened RaftNode
  import opened Cluster
  import opened Agreement
  import opened Replication
  import opened LateArrivals

  /** Every entry of `s` is the leader's entry at that index (stamps aside). */
  ghost predicate Follows(s: LogState, leader: LogState) {
    forall k :: k in s.entries ==> k in leader.entries && s.entries[k].entry == leader.entries[k].entry
  }

  ghost predicate CarriesFrom(start: int, es: seq<Message>, leader: LogState) {
    forall k {:trigger k in leader.entries} :: start <= k < start + |es| ==>
      k in leader.entries && leader.entries[k].entry == es[k - start]
  }

  /** A request carries the leader's messages at the indices its receiver computes. */
  ghost predicate Carries(r: Request, leader: LogState) {
    CarriesFrom(r.h.leaderNextIndex - |r.es|, r.es, leader)
  }

  /** Everything stored agrees with the leader's log, and nothing is committed beyond the leader. */
  ghost predicate StoredAgrees(c: Cluster, l: PeerId)
    requires l in c.nodes
  {
    forall p :: p in c.nodes ==>
      Follows(c.nodes[p].log, c.nodes[l].log) && c.nodes[p].log.commitIndex <= c.nodes[l].log.commitIndex
  }

  /** The same for every request of `term` or before, and no chunk of these claims a later commit. */
  ghost predicate InFlightAgrees(c: Cluster, hist: History, l: PeerId, term: int)
    requires l in c.nodes
  {
    && (forall id :: id in hist.requests && hist.requests[id].h.term <= term ==>
          Carries(hist.requests[id], c.nodes[l].log))
    && (forall x :: Append(x) in c.net && x.term <= term ==> x.leaderCommit <= c.nodes[l].log.commitIndex)
  }

  /** Where a term may start: all that is stored or in flight agrees with the new leader.  The theorems ask
      this of what is live when the term starts (`Live`), for the rest can never be accepted. */
  ghost predicate Start(c: Cluster, hist: History, l: PeerId, term: int) {
    SafeInv(c, hist) && OneTerm(c, l, term) && StoredAgrees(c, l) && InFlightAgrees(c, hist, l, term)
  }

  /** What `n` emitted since it was `n0` are the leader's messages. */
  ghost predicate EmittedSince(n0: Node, n: Node, leader: LogState) {
    && n0.commits <= n.commits
    && forall i :: |n0.commits| <= i < |n.commits| ==>
         i in leader.entries && n.commits[i] == Commit(i, leader.entries[i].entry)
  }

  ghost predicate AllEmitted(c0: Cluster, c: Cluster, l: PeerId)
    requires l in c.nodes && c0.nodes.Keys == c.nodes.Keys
  {
    forall p :: p in c.nodes ==> EmittedSince(c0.nodes[p], c.nodes[p], c.nodes[l].log)
  }

  /** A strict majority of the peers has a log that reaches beyond index `i`. */
  ghost predicate MajorityReaches(nodes: map<PeerId, Node>, i: int) {
    exists holders: set<PeerId> :: Holding(nodes, holders, i)
  }

  ghost predicate Holding(nodes: map<PeerId, Node>, holders: set<PeerId>, i: int) {
    && holders <= nodes.Keys && |nodes.Keys| < |holders| * 2
    && forall q :: q in holders ==> q in nodes && i < nodes[q].log.nextIndex
  }

  /** What the leader committed since the start is of its own term and stored by a majority. */
  ghost predicate QuorumBehind(c0: Cluster, c: Cluster, l: PeerId, term: int)
    requires l in c.nodes && l in c0.nodes
  {
    var i := c.nodes[l].log.commitIndex;
    c0.nodes[l].log.commitIndex < i ==>
      i in c.nodes[l].log.entries && c.nodes[l].log.entries[i].term == term && MajorityReaches(c.nodes, i)
  }

  ghost predicate TermInv(c0: Cluster, c: Cluster, hist: History, l: PeerId, term: int) {
    && Start(c, hist, l, term)
    && c0.nodes.Keys == c.nodes.Keys
    && c0.nodes[l].log.commitIndex <= c.nodes[l].log.commitIndex
    && AllEmitted(c0, c, l)
    && QuorumBehind(c0, c, l, term)
  }

  // ---------- the follower's side ----------

  lemma InstalledFollows(s: LogState, leader: LogState, start: int, es: seq<Message>, term: int, now: int)
    requires Follows(s, leader) && CarriesFrom(start, es, leader)
    ensures Follows(Applied(s, start, es, term, now), leader)
  {
    var t := Applied(s, start, es, term, now);
    forall k | k in t.entries
      ensures k in leader.entries && t.entries[k].entry == leader.entries[k].entry
    {
      if start <= k < start + |es| {
        assert es[k - start] == leader.entries[k].entry;
      } else {
        assert k in s.entries;
      }
    }
  }

  /** What a step may do to a peer, measured against the leader's log. */
  ghost predicate StaysBehind(n: Node, m: Node, leader: LogState) {
    Follows(m.log, leader) && m.log.commitIndex <= leader.commitIndex && EmittedSince(n, m, leader)
  }

  lemma CommitStaysBehind(n: Node, leaderCommit: int, now: int, hist: History, leader: LogState)
    requires NodeSound(n, hist) && Follows(n.log, leader)
    requires n.log.commitIndex <= leader.commitIndex && leaderCommit <= leader.commitIndex
    ensures StaysBehind(n, UpdateCommitIndex(n, leaderCommit, now), leader)
  {
    UpdateCommitSound(n, leaderCommit, now, hist);
  }

  lemma InstallStaysBehind(n: Node, a: Assembler, c: AppendChunk, now: int, hist: History, leader: LogState)
    requires NodeSound(n, hist) && Follows(n.log, leader)
    requires n.log.commitIndex <= leader.commitIndex && c.leaderCommit <= leader.commitIndex
    requires 0 <= a.leaderNextIndex - |a.entriesList| <= n.log.nextIndex
    requires CarriesFrom(a.leaderNextIndex - |a.entriesList|, a.entriesList, leader)
    ensures StaysBehind(n, Install(n, a, c, now).node, leader)
  {
    hide LogSound, Follows, CarriesFrom, Install, StaysBehind, WellFormed;
    var start := a.leaderNextIndex - |a.entriesList|;
    AppliedSound(n.log, n.commits, start, a.entriesList, n.currentTerm, now);
    InstalledFollows(n.log, leader, start, a.entriesList, n.currentTerm, now);
    InstalledStaysBehind(n, Applied(n.log, start, a.entriesList, n.currentTerm, now), a, c, now, hist, leader);
  }

  lemma InstalledStaysBehind(
      n: Node, log: LogState, a: Assembler, c: AppendChunk, now: int, hist: History, leader: LogState)
    requires NodeSound(n, hist) && LogSound(log, n.commits) && Follows(log, leader)
    requires var start := a.leaderNextIndex - |a.entriesList|;
      log == Applied(GapReset(n.log, start), start, a.entriesList, n.currentTerm, now)
    requires log.commitIndex == n.log.commitIndex <= leader.commitIndex && c.leaderCommit <= leader.commitIndex
    ensures StaysBehind(n, Install(n, a, c, now).node, leader)
  {
    hide Applied, GapReset, UpdateCommitIndex, LogSound, Follows;
    CommitStaysBehind(n.(log := log), c.leaderCommit, now, hist, leader);
  }

  lemma EntryChunkStaysBehind(n: Node, c: AppendChunk, now: int, hist: History, leader: LogState)
    requires n.role.Follower? && NodeSound(n, hist) && ChunkOk(c, hist) && c.entry.Some?
    requires hist.requests[c.requestId].h.requestId == c.requestId
    requires var r := hist.requests[c.requestId];
      0 <= r.h.leaderNextIndex - |r.es| <= n.log.nextIndex && Carries(r, leader)
    requires Follows(n.log, leader) && n.log.commitIndex <= leader.commitIndex && c.leaderCommit <= leader.commitIndex
    ensures StaysBehind(n, FollowerOnEntryChunk(n, c, now).node, leader)
  {
    var r := hist.requests[c.requestId];
    AssembledFrom(n, c, hist);
    EntryChunkEffectStaysBehind(n, c, AddChunk(PendingFor(n, c.requestId), c), r, now, hist, leader);
  }

  /** A request that becomes complete is the one that was sent. */
  lemma AssembledFrom(n: Node, c: AppendChunk, hist: History)
    requires n.role.Follower? && PendingOk(n.role, hist) && ChunkOk(c, hist) && c.entry.Some?
    requires hist.requests[c.requestId].h.requestId == c.requestId
    ensures var a, r := AddChunk(PendingFor(n, c.requestId), c), hist.requests[c.requestId];
      a.ready ==> a.entriesList == r.es && a.leaderNextIndex == r.h.leaderNextIndex
  {
    var r := hist.requests[c.requestId];
    var before := PendingFor(n, c.requestId);
    if c.requestId !in n.role.pending {
      NewGathers(r.h, r.es);
    } else {
      assert AssemblerOk(c.requestId, before, hist);
    }
    AssemblerStep(before, c, r);
  }

  lemma EntryChunkEffectStaysBehind(
      n: Node, c: AppendChunk, a: Assembler, r: Request, now: int, hist: History, leader: LogState)
    requires n.role.Follower? && NodeSound(n, hist) && a == AddChunk(PendingFor(n, c.requestId), c)
    requires Follows(n.log, leader) && n.log.commitIndex <= leader.commitIndex && c.leaderCommit <= leader.commitIndex
    requires a.ready ==> a.entriesList == r.es && a.leaderNextIndex == r.h.leaderNextIndex
    requires 0 <= r.h.leaderNextIndex - |r.es| <= n.log.nextIndex && Carries(r, leader)
    ensures StaysBehind(n, FollowerOnEntryChunk(n, c, now).node, leader)
  {
    hide AddChunk, Throws, Install, NodeSound, Follows, CarriesFrom;
    if !Throws(PendingFor(n, c.requestId), c) && a.ready {
      var k := n.(role := Follower(n.role.pending - {c.requestId}));
      RestPendingSound(n, c.requestId, hist);
      InstallStaysBehind(k, a, c, now, hist, leader);
      SameCommitsBehind(k, n, Install(k, a, c, now).node, leader);
    }
  }

  lemma SameCommitsBehind(k: Node, n: Node, m: Node, leader: LogState)
    requires k.commits == n.commits && StaysBehind(k, m, leader)
    ensures StaysBehind(n, m, leader)
  {
  }

  lemma ChunkStaysBehind(n: Node, c: AppendChunk, now: int, hist: History, leader: LogState)
    requires n.role.Follower? && NodeSound(n, hist) && ChunkOk(c, hist)
    requires c.entry.Some? ==> var r := hist.requests[c.requestId];
      && r.h.requestId == c.requestId && Carries(r, leader)
      && 0 <= r.h.leaderNextIndex - |r.es| <= n.log.nextIndex
    requires Follows(n.log, leader) && n.log.commitIndex <= leader.commitIndex && c.leaderCommit <= leader.commitIndex
    ensures StaysBehind(n, FollowerOnChunk(n, c, now).node, leader)
  {
    var m := Adopt(n, c);
    if n.currentTerm <= c.term {
      if IsKeepAlive(c) {
        CommitStaysBehind(m, c.leaderCommit, now, hist, leader);
      } else {
        EntryChunkStaysBehind(m, c, now, hist, leader);
      }
    }
  }

  // ---------- the leader's side ----------

  ghost predicate LeaderGrows(a: LogState, b: LogState) {
    && a.commitIndex <= b.commitIndex
    && forall k :: k in a.entries ==> k in b.entries && b.entries[k].entry == a.entries[k].entry
  }

  lemma MajorityCounts(nodes: map<PeerId, Node>, m: Node, l: PeerId, i: int) returns (holders: set<PeerId>)
    requires l in nodes && m.id == l && m.peers == nodes.Keys - {l} && MatchOk(nodes, m.matchIndexes)
    requires Committable(m, i) && 0 <= i < nodes[l].log.nextIndex
    ensures holders == Matching(m, i) + {l}
    ensures holders <= nodes.Keys && |nodes.Keys| < |holders| * 2
    ensures forall q :: q in holders ==> q in nodes && i < nodes[q].log.nextIndex
  {
    holders := Matching(m, i) + {l};
    assert |holders| == |Matching(m, i)| + 1;
    assert nodes.Keys == m.peers + {l};
    assert |nodes.Keys| == |m.peers| + 1;
    forall q | q in holders
      ensures q in nodes && i < nodes[q].log.nextIndex
    {
      if q != l {
        assert i <= MatchIndex(m, q);
      }
    }
  }

  /** What the leader commits on a reply is committable and becomes its commit index. */
  lemma ReplyCommits(n: Node, r: AppendResponse, now: int, hist: History)
    requires n.role.Leader? && NodeSound(n, hist) && r.term <= n.currentTerm
    ensures var m := LeaderOnReply(n, r, now);
      && LeaderGrows(n.log, m.log) && m.log.entries == n.log.entries && EmittedSince(n, m, m.log)
      && (n.log.commitIndex < m.log.commitIndex ==>
            && r.success && r.processed && r.term == n.currentTerm
            && Committable(RecordReply(n, r), m.log.commitIndex)
            && 0 <= m.log.commitIndex < n.log.nextIndex)
  {
    var k := RecordReply(n, r);
    assert NodeSound(k, hist);
    var hi := Min(k.log.nextIndex, r.peerNextIndex);
    BestCommitIsGreatest(k, hi);
    if 0 <= BestCommit(k, hi) {
      CommitSound(k, BestCommit(k, hi), now, hist);
    }
  }

  // ---------- one step ----------

  /** The only request a step adds is the one its heartbeat sends. */
  ghost predicate OnlyNewRequest(c: Cluster, e: Event, hist: History, hist': History) {
    forall id :: id in hist'.requests && id !in hist.requests ==>
      Enabled(c, e) && e.Heartbeat? && hist'.requests[id] == RequestOf(c.nodes[e.peer], e.to, c.nextId)
  }

  lemma QuietActor(c: Cluster, e: Event, hist: History, l: PeerId, term: int)
    requires Start(c, hist, l, term) && OneTerm(Step(c, e), l, term) && Enabled(c, e) && Actor(e) != l
    ensures StaysBehind(c.nodes[Actor(e)], EffectOf(c, e).node, c.nodes[l].log)
  {
    var n, leader := c.nodes[Actor(e)], c.nodes[l].log;
    assert NodeSound(n, hist);
    assert Follows(n.log, leader) && n.log.commitIndex <= leader.commitIndex;
    if e.Deliver? && n.role.Follower? && e.packet.Append? {
      var x := e.packet.chunk;
      FollowerChunkFacts(n, x, e.now);
      assert Step(c, e).nodes[Actor(e)] == FollowerOnChunk(n, x, e.now).node;
      assert x.term <= term;
      assert ChunkOk(x, hist);
      if x.entry.Some? {
        assert StartOk(c.nodes, c.nextId, x.requestId, hist.requests[x.requestId]);
        assert x.term == hist.requests[x.requestId].h.term;
        assert Carries(hist.requests[x.requestId], leader);
      }
      ChunkStaysBehind(n, x, e.now, hist, leader);
    } else {
      OtherActorsKeepLogs(c, e, l, term);
    }
  }

  lemma OtherActorsKeepLogs(c: Cluster, e: Event, l: PeerId, term: int)
    requires OneTerm(c, l, term) && Enabled(c, e) && Actor(e) != l
    requires !(e.Deliver? && c.nodes[Actor(e)].role.Follower? && e.packet.Append?)
    ensures EffectOf(c, e).node.log == c.nodes[Actor(e)].log && EffectOf(c, e).node.commits == c.nodes[Actor(e)].commits
  {
  }

  /** What a step does to the leader: new commits are committable, old entries stay. */
  ghost predicate LeaderStep(nodes: map<PeerId, Node>, n: Node, m: Node, term: int) {
    && LeaderGrows(n.log, m.log) && EmittedSince(n, m, m.log)
    && (forall k :: k in n.log.entries ==> k in m.log.entries && m.log.entries[k] == n.log.entries[k])
    && (n.log.commitIndex < m.log.commitIndex ==>
          && m.log.commitIndex in m.log.entries && m.log.entries[m.log.commitIndex].term == term
          && MajorityReaches(nodes, m.log.commitIndex))
  }

  lemma ReplyActor(nodes: map<PeerId, Node>, l: PeerId, r: AppendResponse, now: int, hist: History, term: int)
    requires l in nodes && nodes[l].id == l && nodes[l].peers == nodes.Keys - {l}
    requires NodeSound(nodes[l], hist) && nodes[l].role.Leader? && nodes[l].currentTerm == term && r.term <= term
    requires MatchOk(nodes, nodes[l].matchIndexes) && ReplyOk(nodes, r)
    ensures LeaderStep(nodes, nodes[l], LeaderOnReply(nodes[l], r, now), term)
  {
    var n, m := nodes[l], LeaderOnReply(nodes[l], r, now);
    ReplyCommits(n, r, now, hist);
    if n.log.commitIndex < m.log.commitIndex {
      var k := RecordReply(n, r);
      assert MatchOk(nodes, k.matchIndexes);
      var holders := MajorityCounts(nodes, k, l, m.log.commitIndex);
      assert Holding(nodes, holders, m.log.commitIndex);
    }
  }

  lemma OtherLeaderActor(c: Cluster, e: Event, hist: History, l: PeerId, term: int)
    requires Enabled(c, e) && Actor(e) == l && Leads(c, l, term) && NodeSound(c.nodes[l], hist)
    requires !(e.Deliver? && e.packet.AppendReply?)
    ensures LeaderStep(c.nodes, c.nodes[l], EffectOf(c, e).node, term)
  {
    if e.Propose? {
      SubmitKeeps(c.nodes[l].log, c.nodes[l].currentTerm, e.m, e.now);
    }
  }

  lemma LeaderActor(c: Cluster, e: Event, hist: History, l: PeerId, term: int)
    requires SafeInv(c, hist) && Leads(c, l, term) && Leads(Step(c, e), l, term) && Enabled(c, e) && Actor(e) == l
    ensures LeaderStep(c.nodes, c.nodes[l], EffectOf(c, e).node, term)
  {
    assert NodeSound(c.nodes[l], hist);
    if e.Deliver? && e.packet.AppendReply? {
      LeaderReplyFacts(c.nodes[l], e.packet.response, e.now);
      assert ReplyOk(c.nodes, e.packet.response);
      ReplyActor(c.nodes, l, e.packet.response, e.now, hist, term);
    } else {
      OtherLeaderActor(c, e, hist, l, term);
    }
  }

  lemma FollowsGrows(s: LogState, a: LogState, b: LogState)
    requires Follows(s, a) && LeaderGrows(a, b)
    ensures Follows(s, b)
  {
  }

  lemma StoredStaysAgreed(c: Cluster, e: Event, hist: History, l: PeerId, term: int)
    requires Start(c, hist, l, term) && OneTerm(Step(c, e), l, term)
    ensures LeaderGrows(c.nodes[l].log, Step(c, e).nodes[l].log)
    ensures forall p :: p in c.nodes ==>
              p in Step(c, e).nodes && StaysBehind(c.nodes[p], Step(c, e).nodes[p], Step(c, e).nodes[l].log)
  {
    var d := Step(c, e);
    StepMembership(c, e);
    if Enabled(c, e) && Actor(e) == l {
      LeaderActor(c, e, hist, l, term);
    }
    forall p | p in c.nodes
      ensures StaysBehind(c.nodes[p], d.nodes[p], d.nodes[l].log)
    {
      assert Follows(c.nodes[p].log, c.nodes[l].log) && c.nodes[p].log.commitIndex <= c.nodes[l].log.commitIndex;
      if Enabled(c, e) && Actor(e) == p {
        if p != l {
          QuietActor(c, e, hist, l, term);
        }
      } else {
        FollowsGrows(c.nodes[p].log, c.nodes[l].log, d.nodes[l].log);
      }
    }
  }

  lemma CarriesGrows(r: Request, a: LogState, b: LogState)
    requires Carries(r, a) && LeaderGrows(a, b)
    ensures Carries(r, b)
  {
  }

  /** The request a heartbeat of the leader sends carries the leader's entries. */
  lemma HeartbeatCarries(c: Cluster, e: Event, hist: History, l: PeerId, term: int)
    requires SafeInv(c, hist) && OneTerm(c, l, term) && Enabled(c, e) && e.Heartbeat?
    ensures e.peer == l && Carries(RequestOf(c.nodes[e.peer], e.to, c.nextId), c.nodes[l].log)
  {
    assert e.peer == l;
    assert NodeSound(c.nodes[l], hist) && NextOk(c.nodes, c.nodes[l].nextIndexes);
    var r := NewRequestCarries(c.nodes[l], e.to, c.nextId);
  }

  lemma RequestsStayAgreed(c: Cluster, e: Event, hist: History, hist': History, l: PeerId, term: int)
    requires Start(c, hist, l, term) && l in Step(c, e).nodes
    requires LeaderGrows(c.nodes[l].log, Step(c, e).nodes[l].log) && Grows(hist, hist')
    requires OnlyNewRequest(c, e, hist, hist')
    ensures forall id :: id in hist'.requests && hist'.requests[id].h.term <= term ==>
              Carries(hist'.requests[id], Step(c, e).nodes[l].log)
  {
    var leader := Step(c, e).nodes[l].log;
    if Enabled(c, e) && e.Heartbeat? {
      HeartbeatCarries(c, e, hist, l, term);
    }
    forall id | id in hist'.requests && hist'.requests[id].h.term <= term
      ensures Carries(hist'.requests[id], leader)
    {
      CarriesGrows(hist'.requests[id], c.nodes[l].log, leader);
    }
  }

  lemma ChunksStayAgreed(c: Cluster, e: Event, l: PeerId, term: int)
    requires OneTerm(c, l, term) && LeaderGrows(c.nodes[l].log, Step(c, e).nodes[l].log)
    requires forall x :: Append(x) in c.net && x.term <= term ==> x.leaderCommit <= c.nodes[l].log.commitIndex
    ensures forall x :: Append(x) in Step(c, e).net && x.term <= term ==>
              x.leaderCommit <= Step(c, e).nodes[l].log.commitIndex
  {
    forall x | Append(x) in Step(c, e).net && x.term <= term
      ensures x.leaderCommit <= Step(c, e).nodes[l].log.commitIndex
    {
      if Append(x) !in c.net {
        ChunksFromHeartbeats(c, e, x);
        assert e.peer == l;
      }
    }
  }

  /** What a complete log collects for a request carries the log's messages. */
  lemma CollectedCarries(s: LogState, start: int, k: int)
    requires Complete(s) && 0 <= start
    ensures var es := MessagesOf(Collect(s.entries, start, s.nextIndex));
      s.nextIndex - |es| <= k < s.nextIndex ==>
        k in s.entries && s.entries[k].entry == es[k - (s.nextIndex - |es|)]
  {
    if start <= s.nextIndex {
      CollectFull(s.entries, start, s.nextIndex);
    }
    var collected := Collect(s.entries, start, s.nextIndex);
    hide Collect, MessagesOf;
    if start <= k < s.nextIndex {
      assert collected[k - start] == s.entries[start + (k - start)];
    }
  }

  lemma NewRequestCarries(n: Node, to: PeerId, id: RequestId) returns (r: Request)
    requires Complete(n.log) && 0 <= NextIndex(n, to)
    ensures r == RequestOf(n, to, id) && Carries(r, n.log)
  {
    hide Complete, Collect, MessagesOf;
    var s := n.log;
    r := Request(HeaderFor(n, to, id), MessagesOf(Collect(s.entries, NextIndex(n, to), s.nextIndex)));
    forall k {:trigger k in s.entries} | s.nextIndex - |r.es| <= k < s.nextIndex
      ensures k in s.entries && s.entries[k].entry == r.es[k - (s.nextIndex - |r.es|)]
    {
      CollectedCarries(s, NextIndex(n, to), k);
    }
  }

  lemma EmittedChain(n0: Node, n: Node, m: Node, a: LogState, b: LogState)
    requires EmittedSince(n0, n, a) && EmittedSince(n, m, b) && LeaderGrows(a, b)
    ensures EmittedSince(n0, m, b)
  {
  }

  lemma HoldingStays(a: map<PeerId, Node>, b: map<PeerId, Node>, i: int)
    requires MajorityReaches(a, i) && Longer(a, b) && a.Keys == b.Keys
    ensures MajorityReaches(b, i)
  {
    var holders :| Holding(a, holders, i);
    assert Holding(b, holders, i);
  }

  lemma SoundLonger(c: Cluster, e: Event, hist: History)
    requires SafeInv(c, hist)
    ensures Longer(c.nodes, Step(c, e).nodes) && c.nodes.Keys == Step(c, e).nodes.Keys
  {
    StepMembership(c, e);
    forall p | p in c.nodes
      ensures WellFormed(c.nodes[p].log)
    {
      assert NodeSound(c.nodes[p], hist);
    }
    StepLogs(c, e);
  }

  lemma QuorumStays(c0: Cluster, c: Cluster, e: Event, hist: History, l: PeerId, term: int)
    requires SafeInv(c, hist) && l in c0.nodes && Leads(c, l, term) && Leads(Step(c, e), l, term)
    requires QuorumBehind(c0, c, l, term)
    ensures QuorumBehind(c0, Step(c, e), l, term)
  {
    hide EffectOf, SafeInv;
    var d := Step(c, e);
    SoundLonger(c, e, hist);
    var i := d.nodes[l].log.commitIndex;
    if c0.nodes[l].log.commitIndex < i {
      if Enabled(c, e) && Actor(e) == l {
        LeaderActor(c, e, hist, l, term);
      }
      HoldingStays(c.nodes, d.nodes, i);
    }
  }

  lemma AllEmittedStays(c0: Cluster, c: Cluster, d: Cluster, l: PeerId)
    requires l in c.nodes && c0.nodes.Keys == c.nodes.Keys == d.nodes.Keys && AllEmitted(c0, c, l)
    requires LeaderGrows(c.nodes[l].log, d.nodes[l].log)
    requires forall p :: p in c.nodes ==> StaysBehind(c.nodes[p], d.nodes[p], d.nodes[l].log)
    ensures AllEmitted(c0, d, l) && StoredAgrees(d, l)
  {
    forall p | p in d.nodes
      ensures EmittedSince(c0.nodes[p], d.nodes[p], d.nodes[l].log)
    {
      assert StaysBehind(c.nodes[p], d.nodes[p], d.nodes[l].log);
      EmittedChain(c0.nodes[p], c.nodes[p], d.nodes[p], c.nodes[l].log, d.nodes[l].log);
    }
  }

  lemma StepKeepsAgreement(c: Cluster, e: Event, hist: History, hist': History, l: PeerId, term: int)
    requires Start(c, hist, l, term) && OneTerm(Step(c, e), l, term)
    requires Grows(hist, hist') && OnlyNewRequest(c, e, hist, hist')
    ensures LeaderGrows(c.nodes[l].log, Step(c, e).nodes[l].log)
    ensures forall p :: p in c.nodes ==>
              p in Step(c, e).nodes && StaysBehind(c.nodes[p], Step(c, e).nodes[p], Step(c, e).nodes[l].log)
    ensures InFlightAgrees(Step(c, e), hist', l, term)
  {
    StoredStaysAgreed(c, e, hist, l, term);
    StepMembership(c, e);
    RequestsStayAgreed(c, e, hist, hist', l, term);
    ChunksStayAgreed(c, e, l, term);
  }

  lemma StepKeepsTerm(c0: Cluster, c: Cluster, e: Event, hist: History, l: PeerId, term: int) returns (hist': History)
    requires TermInv(c0, c, hist, l, term) && OneTerm(Step(c, e), l, term)
    ensures TermInv(c0, Step(c, e), hist', l, term)
  {
    hist' := StepKeepsSafe(c, e, hist);
    StepKeepsAgreement(c, e, hist, hist', l, term);
    AssembleTerm(c0, c, e, hist, hist', l, term);
  }

  lemma AssembleTerm(
      c0: Cluster, c: Cluster, e: Event, hist: History, hist': History, l: PeerId, term: int)
    requires TermInv(c0, c, hist, l, term) && OneTerm(Step(c, e), l, term) && SafeInv(Step(c, e), hist')
    requires LeaderGrows(c.nodes[l].log, Step(c, e).nodes[l].log)
    requires forall p :: p in c.nodes ==>
               p in Step(c, e).nodes && StaysBehind(c.nodes[p], Step(c, e).nodes[p], Step(c, e).nodes[l].log)
    requires InFlightAgrees(Step(c, e), hist', l, term)
    ensures TermInv(c0, Step(c, e), hist', l, term)
  {
    StepMembership(c, e);
    QuorumStays(c0, c, e, hist, l, term);
    AllEmittedStays(c0, c, Step(c, e), l);
  }

  // ---------- runs ----------

  lemma StartIsTermInv(c: Cluster, hist: History, l: PeerId, term: int)
    requires Start(c, hist, l, term)
    ensures TermInv(c, c, hist, l, term)
  {
  }

  lemma StepOfRunKeepsTerm(c0: Cluster, c: Cluster, e: Event, d: Cluster, hist: History, l: PeerId, term: int)
    returns (hist': History)
    requires TermInv(c0, c, hist, l, term) && d == Step(c, e) && OneTerm(d, l, term)
    ensures TermInv(c0, d, hist', l, term)
  {
    hist' := StepKeepsTerm(c0, c, e, hist, l, term);
  }

  lemma {:induction false} RunKeepsTerm(tr: seq<Cluster>, es: seq<Event>, hist0: History, l: PeerId, term: int, j: nat)
    returns (hist: History)
    requires IsRun(tr, es) && Start(tr[0], hist0, l, term) && j < |tr|
    requires AlwaysOneTerm(tr, l, term)
    ensures TermInv(tr[0], tr[j], hist, l, term)
  {
    hide TermInv, Step, Start, OneTerm;
    if j == 0 {
      hist := hist0;
      StartIsTermInv(tr[0], hist0, l, term);
    } else {
      var before := RunKeepsTerm(tr, es, hist0, l, term, j - 1);
      assert tr[j] == Step(tr[j - 1], es[j - 1]) by { assert tr[j - 1 + 1] == Step(tr[j - 1], es[j - 1]); }
      hist := StepOfRunKeepsTerm(tr[0], tr[j - 1], es[j - 1], tr[j], before, l, term);
    }
  }

  /** The run of the same events from what is live when the term starts. */
  lemma LiveRunInTerm(tr: seq<Cluster>, es: seq<Event>, hist0: History, l: PeerId, term: int)
    returns (live: seq<Cluster>)
    requires IsRun(tr, es) && AlwaysOneTerm(tr, l, term) && Start(Live(tr[0], l, term), hist0, l, term)
    ensures IsRun(live, es) && Start(live[0], hist0, l, term) && AlwaysOneTerm(live, l, term)
    ensures forall j :: 0 <= j < |tr| ==> SameLogs(tr[j], live[j])
  {
    LiveShadows(tr[0], l, term);
    ShadowFacts(tr[0], Live(tr[0], l, term), l, term);
    hide Live, Shadows, OneTerm;
    live := LiveRun(tr, es, l, term);
  }

  /** One-term agreement: any two peers hold the same message at every index both store, no peer has
      committed beyond the leader, and no log is longer than the leader's. */
  lemma LogsAgreeInOneTerm(
      tr: seq<Cluster>, es: seq<Event>, hist0: History, l: PeerId, term: int, j: nat, p: PeerId, q: PeerId)
    requires IsRun(tr, es) && AlwaysOneTerm(tr, l, term) && j < |tr|
    requires Start(Live(tr[0], l, term), hist0, l, term)
    requires p in tr[j].nodes && q in tr[j].nodes
    ensures forall k :: k in tr[j].nodes[p].log.entries && k in tr[j].nodes[q].log.entries ==>
              tr[j].nodes[p].log.entries[k].entry == tr[j].nodes[q].log.entries[k].entry
    ensures tr[j].nodes[p].log.commitIndex <= tr[j].nodes[l].log.commitIndex
    ensures tr[j].nodes[p].log.nextIndex <= tr[j].nodes[l].log.nextIndex
  {
    var live := LiveRunInTerm(tr, es, hist0, l, term);
    var hist := RunKeepsTerm(live, es, hist0, l, term, j);
    var c := live[j];
    assert SameLogs(tr[j], c);
    assert Follows(c.nodes[p].log, c.nodes[l].log) && Follows(c.nodes[q].log, c.nodes[l].log);
    assert NodeSound(c.nodes[p], hist) && NodeSound(c.nodes[l], hist);
    if 0 < c.nodes[p].log.nextIndex {
      assert c.nodes[p].log.nextIndex - 1 in c.nodes[p].log.entries;
    }
  }

  /** Everything a peer emitted so far, also before the term, is the leader's message at that index. */
  ghost predicate EmittedFrom(n: Node, leader: LogState) {
    forall i :: 0 <= i < |n.commits| ==> i in leader.entries && n.commits[i] == Commit(i, leader.entries[i].entry)
  }

  ghost predicate EmittedFromLog(c: Cluster, l: PeerId)
    requires l in c.nodes
  {
    forall p :: p in c.nodes ==> EmittedFrom(c.nodes[p], c.nodes[l].log)
  }

  lemma EmittedFromGrows(n: Node, m: Node, a: LogState, b: LogState)
    requires EmittedFrom(n, a) && EmittedSince(n, m, b) && LeaderGrows(a, b)
    ensures EmittedFrom(m, b)
  {
    forall i | 0 <= i < |m.commits|
      ensures i in b.entries && m.commits[i] == Commit(i, b.entries[i].entry)
    {
      if i < |n.commits| {
        assert m.commits[i] == n.commits[i];
      }
    }
  }

  lemma StepKeepsEmitted(c: Cluster, e: Event, hist: History, l: PeerId, term: int)
    requires Start(c, hist, l, term) && OneTerm(Step(c, e), l, term) && EmittedFromLog(c, l)
    ensures EmittedFromLog(Step(c, e), l)
  {
    StoredStaysAgreed(c, e, hist, l, term);
    StepMembership(c, e);
    var d := Step(c, e);
    hide Step, Start, OneTerm;
    forall p | p in d.nodes
      ensures EmittedFrom(d.nodes[p], d.nodes[l].log)
    {
      assert StaysBehind(c.nodes[p], d.nodes[p], d.nodes[l].log);
      EmittedFromGrows(c.nodes[p], d.nodes[p], c.nodes[l].log, d.nodes[l].log);
    }
  }

  lemma TermInvStarts(c0: Cluster, c: Cluster, hist: History, l: PeerId, term: int)
    requires TermInv(c0, c, hist, l, term)
    ensures Start(c, hist, l, term) && OneTerm(c, l, term) && l in c.nodes
  {
  }

  lemma {:induction false} RunKeepsEmitted(
      tr: seq<Cluster>, es: seq<Event>, hist0: History, l: PeerId, term: int, j: nat)
    requires IsRun(tr, es) && Start(tr[0], hist0, l, term) && AlwaysOneTerm(tr, l, term) && j < |tr|
    requires l in tr[0].nodes && EmittedFromLog(tr[0], l)
    ensures l in tr[j].nodes && EmittedFromLog(tr[j], l)
  {
    hide TermInv, Step, Start, OneTerm, EmittedFromLog;
    if j != 0 {
      RunKeepsEmitted(tr, es, hist0, l, term, j - 1);
      var hist := RunKeepsTerm(tr, es, hist0, l, term, j - 1);
      var later := RunKeepsTerm(tr, es, hist0, l, term, j);
      TermInvStarts(tr[0], tr[j - 1], hist, l, term);
      TermInvStarts(tr[0], tr[j], later, l, term);
      assert tr[j] == Step(tr[j - 1], es[j - 1]) by { assert tr[j - 1 + 1] == Step(tr[j - 1], es[j - 1]); }
      StepKeepsEmitted(tr[j - 1], es[j - 1], hist, l, term);
    }
  }

  /** State-machine safety, wherever each peer's commit index stood when the term began: every peer emits
      the indices 0, 1, 2, ... in order; at every index two peers emitted during the term they emitted the
      same message; and if what was emitted before the term are messages of the leader's log, then of any
      two peers' whole emitted sequences one is a prefix of the other. */
  lemma EmittedSequencesAgree(
      tr: seq<Cluster>, es: seq<Event>, hist0: History, l: PeerId, term: int, j: nat, p: PeerId, q: PeerId)
    requires IsRun(tr, es) && AlwaysOneTerm(tr, l, term) && j < |tr|
    requires Start(Live(tr[0], l, term), hist0, l, term)
    requires p in tr[j].nodes && q in tr[j].nodes
    ensures p in tr[0].nodes && q in tr[0].nodes && l in tr[0].nodes
    ensures var a, b := tr[j].nodes[p].commits, tr[j].nodes[q].commits;
      && InOrder(a, tr[j].nodes[p].log.commitIndex) && InOrder(b, tr[j].nodes[q].log.commitIndex)
      && tr[0].nodes[p].commits <= a && tr[0].nodes[q].commits <= b
      && (forall i :: |tr[0].nodes[p].commits| <= i < |a| && |tr[0].nodes[q].commits| <= i < |b| ==> a[i] == b[i])
      && (EmittedFromLog(tr[0], l) ==> a <= b || b <= a)
  {
    hide Start, Live, OneTerm, AlwaysOneTerm, Step, EmittedFrom, InOrder;
    var live := LiveRunInTerm(tr, es, hist0, l, term);
    assert SameLogs(tr[0], live[0]) && SameLogs(tr[j], live[j]);
    hide IsRun;
    EmittedInLiveRun(live, es, hist0, l, term, j, p, q);
    if EmittedFromLog(tr[0], l) {
      SameEmitted(tr[0], live[0], l);
    }
  }

  lemma SameEmitted(c: Cluster, d: Cluster, l: PeerId)
    requires SameLogs(c, d) && l in c.nodes && EmittedFromLog(c, l)
    ensures EmittedFromLog(d, l)
  {
    forall p | p in d.nodes
      ensures EmittedFrom(d.nodes[p], d.nodes[l].log)
    {
      assert EmittedFrom(c.nodes[p], c.nodes[l].log);
    }
  }

  lemma EmittedInLiveRun(
      tr: seq<Cluster>, es: seq<Event>, hist0: History, l: PeerId, term: int, j: nat, p: PeerId, q: PeerId)
    requires IsRun(tr, es) && AlwaysOneTerm(tr, l, term) && j < |tr| && Start(tr[0], hist0, l, term)
    requires p in tr[j].nodes && q in tr[j].nodes
    ensures p in tr[0].nodes && q in tr[0].nodes && l in tr[0].nodes
    ensures var a, b := tr[j].nodes[p].commits, tr[j].nodes[q].commits;
      && InOrder(a, tr[j].nodes[p].log.commitIndex) && InOrder(b, tr[j].nodes[q].log.commitIndex)
      && tr[0].nodes[p].commits <= a && tr[0].nodes[q].commits <= b
      && (forall i :: |tr[0].nodes[p].commits| <= i < |a| && |tr[0].nodes[q].commits| <= i < |b| ==> a[i] == b[i])
      && (EmittedFromLog(tr[0], l) ==> a <= b || b <= a)
  {
    hide Start, OneTerm, AlwaysOneTerm, Step, IsRun, TermInv;
    var hist := RunKeepsTerm(tr, es, hist0, l, term, j);
    EmittedInTerm(tr[0], tr[j], hist, l, term, p, q);
    if EmittedFromLog(tr[0], l) {
      RunKeepsEmitted(tr, es, hist0, l, term, j);
      WholeSequencesAgree(tr[j].nodes[p], tr[j].nodes[q], tr[j].nodes[l].log);
    }
  }

  lemma EmittedInTerm(c0: Cluster, c: Cluster, hist: History, l: PeerId, term: int, p: PeerId, q: PeerId)
    requires TermInv(c0, c, hist, l, term) && p in c.nodes && q in c.nodes
    ensures p in c0.nodes && q in c0.nodes && l in c0.nodes
    ensures var a, b := c.nodes[p].commits, c.nodes[q].commits;
      && InOrder(a, c.nodes[p].log.commitIndex) && InOrder(b, c.nodes[q].log.commitIndex)
      && c0.nodes[p].commits <= a && c0.nodes[q].commits <= b
      && (forall i :: |c0.nodes[p].commits| <= i < |a| && |c0.nodes[q].commits| <= i < |b| ==> a[i] == b[i])
  {
    assert EmittedSince(c0.nodes[p], c.nodes[p], c.nodes[l].log);
    assert EmittedSince(c0.nodes[q], c.nodes[q], c.nodes[l].log);
    assert NodeSound(c.nodes[p], hist) && NodeSound(c.nodes[q], hist);
  }

  lemma WholeSequencesAgree(n: Node, m: Node, leader: LogState)
    requires EmittedFrom(n, leader) && EmittedFrom(m, leader)
    ensures n.commits <= m.commits || m.commits <= n.commits
  {
    var a, b := n.commits, m.commits;
    assert forall i :: 0 <= i < |a| && i < |b| ==> a[i] == b[i];
    if |a| <= |b| {
      assert a == b[..|a|];
    } else {
      assert b == a[..|b|];
    }
  }

  /** Quorum commit: whenever the leader's commit index has moved in its term, a strict majority of
      the peers, itself included, stores the leader's messages at every index up to it, and the entry
      there carries the leader's own term. */
  lemma CommitsRestOnMajority(tr: seq<Cluster>, es: seq<Event>, hist0: History, l: PeerId, term: int, j: nat)
    returns (holders: set<PeerId>)
    requires IsRun(tr, es) && AlwaysOneTerm(tr, l, term) && j < |tr|
    requires Start(Live(tr[0], l, term), hist0, l, term)
    requires tr[0].nodes[l].log.commitIndex < tr[j].nodes[l].log.commitIndex
    ensures var s := tr[j].nodes[l].log;
      && holders <= tr[j].nodes.Keys && |tr[j].nodes.Keys| < |holders| * 2
      && s.commitIndex in s.entries && s.entries[s.commitIndex].term == term
      && (forall q, k :: q in holders && 0 <= k <= s.commitIndex ==>
            && k in s.entries && k in tr[j].nodes[q].log.entries
            && tr[j].nodes[q].log.entries[k].entry == s.entries[k].entry)
  {
    var live := LiveRunInTerm(tr, es, hist0, l, term);
    var hist := RunKeepsTerm(live, es, hist0, l, term, j);
    assert SameLogs(tr[0], live[0]) && SameLogs(tr[j], live[j]);
    var c, s := live[j], live[j].nodes[l].log;
    assert MajorityReaches(c.nodes, s.commitIndex);
    holders :| Holding(c.nodes, holders, s.commitIndex);
    assert NodeSound(c.nodes[l], hist);
    forall q, k | q in holders && 0 <= k <= s.commitIndex
      ensures k in s.entries && k in c.nodes[q].log.entries && c.nodes[q].log.entries[k].entry == s.entries[k].entry
    {
      assert NodeSound(c.nodes[q], hist) && Follows(c.nodes[q].log, s);
    }
  }

  // ---------- where a term begins so ----------

  /** Complete logs that are parts of the leader's, commit indices and recorded next indices within bounds,
      and of what can still be accepted only keep-alives and honest replies. */
  ghost predicate SoundParts(c: Cluster, l: PeerId, term: int)
    requires l in c.nodes
  {
    && NeverExpires(c) && AllRecordsOk(c) && StoredAgrees(c, l)
    && (forall p :: p in c.nodes ==> LogSound(c.nodes[p].log, c.nodes[p].commits))
    && NoLiveRequest(c, l, term)
    && (forall r :: AppendReply(r) in c.net && !Dead(c, AppendReply(r), l, term) ==> ReplyOk(c.nodes, r))
    && (forall x :: Append(x) in c.net && !Dead(c, Append(x), l, term) ==>
          x.leaderCommit <= c.nodes[l].log.commitIndex)
  }

  lemma SoundPartsStart(c: Cluster, l: PeerId, term: int)
    requires FixedMembership(c) && OneTerm(c, l, term) && SoundParts(c, l, term)
    ensures Start(Live(c, l, term), History(map[], map[]), l, term)
  {
    var hist, d := History(map[], map[]), Live(c, l, term);
    LiveShadows(c, l, term);
    ShadowFacts(c, d, l, term);
    NothingPending(c, l, term);
    ShadowRecords(c, d, l, term);
    LivePackets(c, l, term);
    hide Live, LogSound, Shadows, OneTerm, Dead, NextOk, MatchOk, FixedMembership, ReplyOk, Follows;
    forall p | p in d.nodes
      ensures NodeSound(d.nodes[p], hist)
    {
      assert PendingOk(d.nodes[p].role, hist);
    }
    assert SafeInv(d, hist);
  }

  lemma LivePackets(c: Cluster, l: PeerId, term: int)
    ensures forall x :: x in Live(c, l, term).net <==> x in c.net && !Dead(c, x, l, term)
  {
  }

  /** Records, replies and requests stay within the logs of what is live. */
  lemma ShadowRecords(c: Cluster, d: Cluster, l: PeerId, term: int)
    requires Shadows(c, d, l, term)
    ensures AllRecordsOk(c) ==> AllRecordsOk(d)
    ensures NeverExpires(c) ==> NeverExpires(d)
    ensures l in c.nodes && StoredAgrees(c, l) ==> StoredAgrees(d, l)
    ensures forall r :: ReplyOk(c.nodes, r) ==> ReplyOk(d.nodes, r)
    ensures forall id, r :: StartOk(c.nodes, c.nextId, id, r) ==> StartOk(d.nodes, d.nextId, id, r)
  {
    ShadowFacts(c, d, l, term);
    hide Dead, FewerPending, Follows;
    forall p | p in c.nodes
      ensures d.nodes[p] == c.nodes[p].(role := d.nodes[p].role)
    {
      assert Lighter(c.nodes[p], d.nodes[p], p, d.net, c.nextId);
    }
  }

  /** What may start a term whole may start it with only what is live. */
  lemma LiveStart(c: Cluster, hist: History, l: PeerId, term: int)
    requires Start(c, hist, l, term)
    ensures Start(Live(c, l, term), hist, l, term)
  {
    var d := Live(c, l, term);
    LiveShadows(c, l, term);
    ShadowFacts(c, d, l, term);
    ShadowRecords(c, d, l, term);
    LivePackets(c, l, term);
    hide Live, OneTerm, Dead, ReplyOk, StartOk, Follows, AllRecordsOk, FixedMembership, ChunkOk, StoredAgrees, Carries;
    forall p | p in d.nodes
      ensures NodeSound(d.nodes[p], hist)
    {
      assert NodeSound(c.nodes[p], hist) && Lighter(c.nodes[p], d.nodes[p], p, d.net, c.nextId);
      LighterSound(c.nodes[p], d.nodes[p], p, d.net, c.nextId, hist);
    }
    hide NodeSound, Shadows;
    assert SafeInv(d, hist);
  }

  lemma LighterSound(n: Node, m: Node, p: PeerId, net: set<Packet>, nextId: RequestId, hist: History)
    requires NodeSound(n, hist) && Lighter(n, m, p, net, nextId)
    ensures NodeSound(m, hist)
  {
    hide LogSound, LeftOver;
  }

  // ---------- the first term of a new cluster ----------

  /** Nobody led yet: nothing stored, no chunk sent, every peer at term 0. */
  ghost predicate Idle(c: Cluster) {
    && (forall p :: p in c.nodes ==>
          && !c.nodes[p].role.Leader? && c.nodes[p].log == EMPTY_LOG && c.nodes[p].currentTerm == 0
          && (c.nodes[p].role.Follower? ==> c.nodes[p].role.pending == map[]))
    && (forall x :: Append(x) !in c.net)
  }

  lemma IdleActor(c: Cluster, e: Event)
    requires Idle(c) && Enabled(c, e)
    ensures var f := EffectOf(c, e);
      && f.node.log == EMPTY_LOG && (!f.node.role.Leader? ==> f.node.currentTerm == 0)
      && (f.node.role.Follower? ==> f.node.role.pending == map[])
      && (forall x :: Append(x) !in f.out)
  {
  }

  lemma IdleStep(c: Cluster, e: Event)
    requires Idle(c)
    ensures var d := Step(c, e);
      && (forall p :: p in d.nodes ==>
            && p in c.nodes && d.nodes[p].log == EMPTY_LOG
            && (d.nodes[p].role.Follower? ==> d.nodes[p].role.pending == map[]))
      && (forall x :: Append(x) !in d.net)
      && (forall p :: p in d.nodes && !d.nodes[p].role.Leader? ==> d.nodes[p].currentTerm == 0)
      && (forall p, q :: p in d.nodes && q in d.nodes && d.nodes[p].role.Leader? && d.nodes[q].role.Leader? ==> p == q)
  {
    if Enabled(c, e) {
      IdleActor(c, e);
    }
    hide EffectOf;
  }

  lemma {:induction false} IdleRun(tr: seq<Cluster>, es: seq<Event>, i: nat) returns (hist: History)
    requires IsRun(tr, es) && Fresh(tr[0]) && NeverExpires(tr[0]) && i < |tr|
    requires forall x, p :: 0 <= x < i && p in tr[x].nodes ==> !tr[x].nodes[p].role.Leader?
    ensures SafeInv(tr[i], hist) && hist.requests == map[]
    ensures i == 0 ==> Idle(tr[0])
    ensures 0 < i ==> Idle(tr[i - 1]) && tr[i] == Step(tr[i - 1], es[i - 1])
  {
    if i == 0 {
      hist := History(map[], map[]);
    } else {
      var before := IdleRun(tr, es, i - 1);
      hist := StepKeepsSafe(tr[i - 1], es[i - 1], before);
      if 1 < i {
        IdleStep(tr[i - 2], es[i - 2]);
      }
      assert Idle(tr[i - 1]);
      assert forall id :: id !in hist.requests;
    }
  }

  /** The first leader of a new cluster starts its term as `Start` asks. */
  lemma FirstLeaderStarts(tr: seq<Cluster>, es: seq<Event>, i: nat, l: PeerId) returns (hist: History)
    requires IsRun(tr, es) && Fresh(tr[0]) && NeverExpires(tr[0]) && i < |tr|
    requires forall x, p :: 0 <= x < i && p in tr[x].nodes ==> !tr[x].nodes[p].role.Leader?
    requires l in tr[i].nodes && tr[i].nodes[l].role.Leader?
    ensures Start(Live(tr[i], l, tr[i].nodes[l].currentTerm), hist, l, tr[i].nodes[l].currentTerm)
  {
    hide Start, Live, Step, Fresh, NeverExpires;
    hist := FirstLeaderStartsWhole(tr, es, i, l);
    LiveStart(tr[i], hist, l, tr[i].nodes[l].currentTerm);
  }

  lemma FirstLeaderStartsWhole(tr: seq<Cluster>, es: seq<Event>, i: nat, l: PeerId) returns (hist: History)
    requires IsRun(tr, es) && Fresh(tr[0]) && NeverExpires(tr[0]) && i < |tr|
    requires forall x, p :: 0 <= x < i && p in tr[x].nodes ==> !tr[x].nodes[p].role.Leader?
    requires l in tr[i].nodes && tr[i].nodes[l].role.Leader?
    ensures Start(tr[i], hist, l, tr[i].nodes[l].currentTerm)
  {
    hist := IdleRun(tr, es, i);
    assert 0 < i;
    IdleStep(tr[i - 1], es[i - 1]);
    var c := tr[i];
    NewLeaderComesFromTermBefore(tr[i - 1], es[i - 1], l, c.nodes[l].currentTerm);
  }

  lemma SubRun(tr: seq<Cluster>, es: seq<Event>, i: nat, j: nat, l: PeerId, term: int)
    requires IsRun(tr, es) && i <= j < |tr|
    requires forall x :: i <= x <= j ==> OneTerm(tr[x], l, term)
    ensures IsRun(tr[i..j + 1], es[i..j]) && AlwaysOneTerm(tr[i..j + 1], l, term)
  {
    var part, events := tr[i..j + 1], es[i..j];
    forall x | 0 <= x < |events|
      ensures part[x + 1] == Step(part[x], events[x])
    {
      assert part[x] == tr[i + x] && part[x + 1] == tr[i + x + 1] && events[x] == es[i + x];
    }
    forall x | 0 <= x < |part|
      ensures OneTerm(part[x], l, term)
    {
      assert part[x] == tr[i + x];
    }
  }

  lemma NothingEmittedBefore(tr: seq<Cluster>, es: seq<Event>, i: nat, p: PeerId)
    requires IsRun(tr, es) && Fresh(tr[0]) && NeverExpires(tr[0]) && i < |tr| && p in tr[i].nodes
    requires forall x, r :: 0 <= x < i && r in tr[x].nodes ==> !tr[x].nodes[r].role.Leader?
    ensures tr[i].nodes[p].commits == []
  {
    var hist := IdleRun(tr, es, i);
    assert NodeSound(tr[i].nodes[p], hist);
    if 0 < i {
      IdleStep(tr[i - 1], es[i - 1]);
    }
  }

  /** So a new cluster without expiry is safe for as long as its first leader's term lasts: all
      peers emit prefixes of one sequence from index 0 on. */
  lemma FirstTermIsSafe(tr: seq<Cluster>, es: seq<Event>, i: nat, j: nat, l: PeerId, p: PeerId, q: PeerId)
    requires IsRun(tr, es) && Fresh(tr[0]) && NeverExpires(tr[0]) && i <= j < |tr|
    requires forall x, r :: 0 <= x < i && r in tr[x].nodes ==> !tr[x].nodes[r].role.Leader?
    requires l in tr[i].nodes && tr[i].nodes[l].role.Leader?
    requires forall x :: i <= x <= j ==> OneTerm(tr[x], l, tr[i].nodes[l].currentTerm)
    requires p in tr[j].nodes && q in tr[j].nodes
    ensures tr[j].nodes[p].commits <= tr[j].nodes[q].commits || tr[j].nodes[q].commits <= tr[j].nodes[p].commits
  {
    hide Start, OneTerm, Fresh, NeverExpires, EmittedFromLog, AlwaysOneTerm, InOrder, Step, Live;
    var hist := FirstLeaderStarts(tr, es, i, l);
    NothingEmitted(tr, es, i, l);
    SubRun(tr, es, i, j, l, tr[i].nodes[l].currentTerm);
    EmittedSequencesAgree(tr[i..j + 1], es[i..j], hist, l, tr[i].nodes[l].currentTerm, j - i, p, q);
  }

  lemma NothingEmitted(tr: seq<Cluster>, es: seq<Event>, i: nat, l: PeerId)
    requires IsRun(tr, es) && Fresh(tr[0]) && NeverExpires(tr[0]) && i < |tr| && l in tr[i].nodes
    requires forall x, r :: 0 <= x < i && r in tr[x].nodes ==> !tr[x].nodes[r].role.Leader?
    ensures EmittedFromLog(tr[i], l)
  {
    hide IsRun, Fresh, NeverExpires;
    forall p | p in tr[i].nodes
      ensures tr[i].nodes[p].commits == []
    {
      NothingEmittedBefore(tr, es, i, p);
    }
  }
}
