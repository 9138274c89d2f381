/**
 Logs agree stamp by stamp: two entries at the same index with the same term, anywhere in the
 cluster and at any two moments of a run, carry the same message.
 */
module Agreement {
  import opened Messages
  import opened RaftLogs
  import opened AppendEntriesRequests
  import opened RaftNode
  import opened Cluster
  import opened Elections

  datatype Request = Request(h: Header, es: seq<Message>)

  /** Per term the messages its leader has held, by index; and the requests for entries ever sent. */
  datatype History = History(messages: map<int, map<int, Message>>, requests: map<RequestId, Request>)

  ghost predicate Has(hist: History, term: int, k: int, m: Message) {
    term in hist.messages && k in hist.messages[term] && hist.messages[term][k] == m
  }

  ghost predicate Grows(a: History, b: History) {
    && (forall t, k, m :: Has(a, t, k, m) ==> Has(b, t, k, m))
    && (forall id :: id in a.requests ==> id in b.requests && b.requests[id] == a.requests[id])
  }

  ghost predicate StampedOk(s: LogState, hist: History) {
    forall k :: k in s.entries ==> Has(hist, s.entries[k].term, k, s.entries[k].entry)
  }

  /** What a term's leader holds is that term's history, and nothing in that history lies beyond it. */
  ghost predicate LeaderOk(n: Node, hist: History) {
    n.role.Leader? ==>
      && n.currentTerm in hist.messages
      && (forall k :: k in n.log.entries ==> Has(hist, n.currentTerm, k, n.log.entries[k].entry))
      && (forall k :: k in hist.messages[n.currentTerm] ==> k < n.log.nextIndex)
  }

  ghost predicate PendingOk(role: Role, hist: History) {
    role.Follower? ==> forall id :: id in role.pending ==> AssemblerOk(id, role.pending[id], hist)
  }

  ghost predicate AssemblerOk(id: RequestId, a: Assembler, hist: History) {
    id in hist.requests && Gathering(a, hist.requests[id].h, hist.requests[id].es) && !a.ready
  }

  ghost predicate NodeOk(n: Node, hist: History) {
    WellFormed(n.log) && StampedOk(n.log, hist) && LeaderOk(n, hist) && PendingOk(n.role, hist)
  }

  /** Position `i` of a request stands for the index the receiver computes for it. */
  ghost predicate RequestOk(r: Request, hist: History) {
    && r.es != []
    && forall i :: 0 <= i < |r.es| ==> Has(hist, r.h.term, r.h.leaderNextIndex - |r.es| + i, r.es[i])
  }

  ghost predicate RequestsKnown(hist: History, nextId: RequestId) {
    forall id :: id in hist.requests ==>
      id < nextId && hist.requests[id].h.requestId == id && RequestOk(hist.requests[id], hist)
  }

  ghost predicate ChunkOk(c: AppendChunk, hist: History) {
    if c.entry.None? then IsKeepAlive(c)
    else
      && c.requestId in hist.requests
      && 0 <= c.sequence < |hist.requests[c.requestId].es|
      && c == hist.requests[c.requestId].h.EntryChunk(hist.requests[c.requestId].es, c.sequence)
  }

  ghost predicate ChunksKnown(c: Cluster, hist: History) {
    forall x :: Append(x) in c.net ==> ChunkOk(x, hist)
  }

  ghost predicate Inv(c: Cluster, hist: History) {
    && FixedMembership(c)
    && (forall p :: p in c.nodes ==> NodeOk(c.nodes[p], hist))
    && RequestsKnown(hist, c.nextId)
    && ChunksKnown(c, hist)
  }

  // ---------- growth ----------

  lemma RequestOkGrows(r: Request, a: History, b: History)
    requires RequestOk(r, a) && Grows(a, b)
    ensures RequestOk(r, b)
  {
  }

  lemma NodeOkGrows(n: Node, a: History, b: History)
    requires NodeOk(n, a) && Grows(a, b) && (n.role.Leader? ==> LeaderOk(n, b))
    ensures NodeOk(n, b)
  {
  }

  lemma ChunkOkGrows(x: AppendChunk, a: History, b: History)
    requires ChunkOk(x, a) && Grows(a, b)
    ensures ChunkOk(x, b)
  {
  }

  // ---------- a follower installs a request ----------

  lemma InstalledStamps(s: LogState, r: Request, now: int, hist: History)
    requires WellFormed(s) && StampedOk(s, hist) && RequestOk(r, hist)
    ensures var start := r.h.leaderNextIndex - |r.es|;
      var t := Applied(GapReset(s, start), start, r.es, r.h.term, now);
      WellFormed(t) && StampedOk(t, hist)
  {
    hide Applied, GapReset, WellFormed, Has, RequestOk;
    var start := r.h.leaderNextIndex - |r.es|;
    InstalledKeeps(s, start, r.es, r.h.term, now);
    var t := Applied(GapReset(s, start), start, r.es, r.h.term, now);
    forall k | k in t.entries
      ensures Has(hist, t.entries[k].term, k, t.entries[k].entry)
    {
      InstalledStamp(s, r, now, hist, k);
    }
  }

  lemma InstalledStamp(s: LogState, r: Request, now: int, hist: History, k: int)
    requires StampedOk(s, hist) && RequestOk(r, hist)
    ensures var start := r.h.leaderNextIndex - |r.es|;
      var t := Applied(GapReset(s, start), start, r.es, r.h.term, now);
      k in t.entries ==> Has(hist, t.entries[k].term, k, t.entries[k].entry)
  {
    hide Has;
    var start := r.h.leaderNextIndex - |r.es|;
    if start <= k < start + |r.es| {
      assert Has(hist, r.h.term, start + (k - start), r.es[k - start]);
    }
  }

  lemma CommitStamps(n: Node, leaderCommit: int, now: int, hist: History)
    requires WellFormed(n.log) && StampedOk(n.log, hist)
    ensures var m := UpdateCommitIndex(n, leaderCommit, now);
      && WellFormed(m.log) && StampedOk(m.log, hist)
      && m == n.(log := m.log, commits := m.commits)
  {
    CommitKeeps(n.log, Min(n.log.nextIndex - 1, leaderCommit), n.config.expirationTimeInMs, now);
  }

  lemma InstallOk(m: Node, a: Assembler, r: Request, c: AppendChunk, now: int, hist: History)
    requires m.role.Follower? && NodeOk(m, hist) && RequestOk(r, hist)
    requires a.entriesList == r.es && a.leaderNextIndex == r.h.leaderNextIndex && m.currentTerm == r.h.term
    ensures NodeOk(Install(m, a, c, now).node, hist)
  {
    hide Applied, GapReset, UpdateCommitIndex, WellFormed, StampedOk;
    var start := r.h.leaderNextIndex - |r.es|;
    InstalledStamps(m.log, r, now, hist);
    var log := Applied(GapReset(m.log, start), start, r.es, r.h.term, now);
    CommitStamps(m.(log := log), c.leaderCommit, now, hist);
  }

  lemma PendingChanges(n: Node, pending: map<RequestId, Assembler>, hist: History)
    requires n.role.Follower? && NodeOk(n, hist)
    requires PendingOk(Follower(pending), hist)
    ensures NodeOk(n.(role := Follower(pending)), hist)
  {
  }

  /** What the assembler of a pending request becomes with one more of its chunks. */
  lemma AssemblerStep(before: Assembler, c: AppendChunk, r: Request)
    requires Gathering(before, r.h, r.es) && !before.ready
    requires 0 <= c.sequence < |r.es| && c == r.h.EntryChunk(r.es, c.sequence)
    ensures var a := AddChunk(before, c);
      && Gathering(a, r.h, r.es)
      && (Throws(before, c) ==> !a.ready)
      && (a.ready ==> a.entriesList == r.es && a.leaderNextIndex == r.h.leaderNextIndex)
  {
    AddGathers(before, r.h, r.es, c.sequence);
  }

  lemma EntryChunkOk(n: Node, c: AppendChunk, now: int, hist: History)
    requires n.role.Follower? && NodeOk(n, hist) && ChunkOk(c, hist) && c.entry.Some?
    requires n.currentTerm == c.term && RequestOk(hist.requests[c.requestId], hist)
    requires hist.requests[c.requestId].h.requestId == c.requestId
    ensures NodeOk(FollowerOnEntryChunk(n, c, now).node, hist)
  {
    var r := hist.requests[c.requestId];
    var before := PendingFor(n, c.requestId);
    if c.requestId !in n.role.pending {
      NewGathers(r.h, r.es);
    } else {
      assert AssemblerOk(c.requestId, before, hist);
    }
    AssemblerStep(before, c, r);
    EntryChunkEffect(n, c, AddChunk(before, c), r, now, hist);
  }

  lemma EntryChunkEffect(n: Node, c: AppendChunk, a: Assembler, r: Request, now: int, hist: History)
    requires n.role.Follower? && NodeOk(n, hist) && a == AddChunk(PendingFor(n, c.requestId), c)
    requires c.requestId in hist.requests && hist.requests[c.requestId] == r && RequestOk(r, hist)
    requires Gathering(a, r.h, r.es) && (Throws(PendingFor(n, c.requestId), c) ==> !a.ready)
    requires a.ready ==> a.entriesList == r.es && a.leaderNextIndex == r.h.leaderNextIndex
    requires n.currentTerm == r.h.term
    ensures NodeOk(FollowerOnEntryChunk(n, c, now).node, hist)
  {
    if !a.ready {
      var pending := n.role.pending[c.requestId := a];
      assert forall id :: id in pending ==> AssemblerOk(id, pending[id], hist);
      PendingChanges(n, pending, hist);
    } else {
      var pending := n.role.pending - {c.requestId};
      PendingChanges(n, pending, hist);
      InstallOk(n.(role := Follower(pending)), a, r, c, now, hist);
    }
  }

  lemma FollowerChunkOk(n: Node, c: AppendChunk, now: int, hist: History, nextId: RequestId)
    requires n.role.Follower? && NodeOk(n, hist) && ChunkOk(c, hist) && RequestsKnown(hist, nextId)
    ensures NodeOk(FollowerOnChunk(n, c, now).node, hist)
  {
    var m := Adopt(n, c);
    assert NodeOk(m, hist);
    if n.currentTerm <= c.term {
      if IsKeepAlive(c) {
        CommitStamps(m, c.leaderCommit, now, hist);
      } else {
        EntryChunkOk(m, c, now, hist);
      }
    }
  }

  // ---------- the other steps ----------

  lemma LeaderReplyOk(n: Node, r: AppendResponse, now: int, hist: History)
    requires n.role.Leader? && NodeOk(n, hist)
    ensures NodeOk(LeaderOnReply(n, r, now), hist)
  {
    var m := RecordReply(n, r);
    CommitKeeps(m.log, BestCommit(m, Min(m.log.nextIndex, r.peerNextIndex)), m.config.expirationTimeInMs, now);
  }

  lemma CandidateOk(n: Node, packet: Packet, now: int, hist: History)
    requires n.role.Candidate? && NodeOk(n, hist) && !Receive(n, packet, now).node.role.Leader?
    ensures NodeOk(Receive(n, packet, now).node, hist)
  {
  }

  lemma TickOk(n: Node, timedOut: bool, hist: History)
    requires NodeOk(n, hist)
    ensures NodeOk(TickNode(n, timedOut).node, hist)
  {
  }

  /** Every step but a win, a heartbeat and a proposal leaves the history as it is. */
  lemma QuietStep(c: Cluster, e: Event, hist: History)
    requires Inv(c, hist) && Enabled(c, e) && (e.Deliver? || e.Tick?)
    requires EffectOf(c, e).node.role.Leader? ==> c.nodes[Actor(e)].role.Leader?
    ensures NodeOk(EffectOf(c, e).node, hist)
  {
    var n := c.nodes[Actor(e)];
    if e.Tick? {
      TickOk(n, e.timedOut, hist);
    } else if n.role.Candidate? {
      CandidateOk(n, e.packet, e.now, hist);
    } else if n.role.Follower? && e.packet.Append? {
      assert ChunkOk(e.packet.chunk, hist);
      FollowerChunkOk(n, e.packet.chunk, e.now, hist, c.nextId);
    } else if n.role.Leader? && e.packet.AppendReply? {
      LeaderReplyOk(n, e.packet.response, e.now, hist);
    }
  }

  /** Chunks come from heartbeats only. */
  lemma ChunksFromHeartbeats(c: Cluster, e: Event, x: AppendChunk)
    requires Append(x) !in c.net && Append(x) in Step(c, e).net
    ensures Enabled(c, e) && e.Heartbeat?
  {
  }

  lemma {:induction false} AssembleInv(c: Cluster, e: Event, hist: History, hist': History)
    requires Inv(c, hist) && Enabled(c, e) && Grows(hist, hist')
    requires NodeOk(EffectOf(c, e).node, hist')
    requires forall p :: p in c.nodes && p != Actor(e) && c.nodes[p].role.Leader? ==> LeaderOk(c.nodes[p], hist')
    requires RequestsKnown(hist', Step(c, e).nextId)
    requires forall x :: Append(x) in EffectOf(c, e).out ==> ChunkOk(x, hist')
    ensures Inv(Step(c, e), hist')
  {
    StepMembership(c, e);
    var d := Step(c, e);
    forall p | p in d.nodes
      ensures NodeOk(d.nodes[p], hist')
    {
      if p != Actor(e) {
        NodeOkGrows(c.nodes[p], hist, hist');
      }
    }
    forall x | Append(x) in d.net
      ensures ChunkOk(x, hist')
    {
      if Append(x) in c.net {
        ChunkOkGrows(x, hist, hist');
      }
    }
  }

  /** A proposal adds one message to the history of the leader's term. */
  lemma ProposeStep(c: Cluster, e: Event, hist: History) returns (hist': History)
    requires Inv(c, hist) && Enabled(c, e) && e.Propose? && c.nodes[e.peer].role.Leader?
    requires forall p :: Leads(c, p, c.nodes[e.peer].currentTerm) ==> p == e.peer
    ensures Inv(Step(c, e), hist') && Grows(hist, hist') && hist'.messages.Keys == hist.messages.Keys
    ensures forall t :: t in hist.messages && t != c.nodes[e.peer].currentTerm ==> hist'.messages[t] == hist.messages[t]
  {
    var n := c.nodes[e.peer];
    assert NodeOk(n, hist) && RequestsKnown(hist, c.nextId);
    hist' := Extended(hist, n.currentTerm, n.log.nextIndex, e.m);
    ProposerOk(n, e.m, e.now, hist);
    RequestsGrow(hist, hist', c.nextId, c.nextId);
    forall p | p in c.nodes && p != e.peer && c.nodes[p].role.Leader?
      ensures LeaderOk(c.nodes[p], hist')
    {
      assert !Leads(c, p, n.currentTerm);
      assert NodeOk(c.nodes[p], hist);
      OtherTermOk(c.nodes[p], hist, n.currentTerm, n.log.nextIndex, e.m);
    }
    QuietSends(c, e);
    assert EffectOf(c, e).node == SubmitTo(n, e.m, e.now);
    hide EffectOf, SubmitTo, NodeOk, LeaderOk, Extended, ChunkOk, RequestOk;
    AssembleInv(c, e, hist, hist');
  }

  /** The history with one message more at index `k` of term `t`. */
  ghost function Extended(hist: History, t: int, k: int, m: Message): History
    requires t in hist.messages
  {
    hist.(messages := hist.messages[t := hist.messages[t][k := m]])
  }

  lemma ProposerOk(n: Node, m: Message, now: int, hist: History)
    requires n.role.Leader? && NodeOk(n, hist)
    ensures var hist' := Extended(hist, n.currentTerm, n.log.nextIndex, m);
      && Grows(hist, hist') && NodeOk(SubmitTo(n, m, now), hist')
      && hist'.requests == hist.requests && hist'.messages.Keys == hist.messages.Keys
      && forall t :: t in hist.messages && t != n.currentTerm ==> hist'.messages[t] == hist.messages[t]
  {
    var hist' := Extended(hist, n.currentTerm, n.log.nextIndex, m);
    SubmitKeeps(n.log, n.currentTerm, m, now);
    assert Grows(hist, hist');
    NodeOkGrows(n.(role := Follower(map[])), hist, hist');
  }

  lemma OtherTermOk(n: Node, hist: History, t: int, k: int, m: Message)
    requires NodeOk(n, hist) && t in hist.messages && n.role.Leader? && n.currentTerm != t
    ensures LeaderOk(n, Extended(hist, t, k, m))
  {
    hide WellFormed;
  }

  lemma RequestsGrow(a: History, b: History, nextId: RequestId, nextId': RequestId)
    requires RequestsKnown(a, nextId) && Grows(a, b) && b.requests == a.requests && nextId <= nextId'
    ensures RequestsKnown(b, nextId')
  {
    forall id | id in b.requests
      ensures RequestOk(b.requests[id], b)
    {
      RequestOkGrows(a.requests[id], a, b);
    }
  }

  /** The history after a new term was opened with what the winner's log holds. */
  ghost function Opened(hist: History, t: int, s: LogState): History {
    hist.(messages := hist.messages[t := map k | k in s.entries :: s.entries[k].entry])
  }

  lemma OpenedGrows(hist: History, t: int, s: LogState)
    requires t !in hist.messages
    ensures Grows(hist, Opened(hist, t, s))
  {
  }

  lemma OtherLeaders(n: Node, hist: History, t: int, s: LogState)
    requires NodeOk(n, hist) && t !in hist.messages
    ensures LeaderOk(n, Opened(hist, t, s))
  {
    OpenedGrows(hist, t, s);
  }

  lemma WinnerOk(n: Node, m: Node, hist: History)
    requires NodeOk(n, hist) && m.log == n.log && m.role.Leader? && m.currentTerm !in hist.messages
    ensures NodeOk(m, Opened(hist, m.currentTerm, n.log))
  {
    OpenedGrows(hist, m.currentTerm, n.log);
  }

  /** A win opens the history of a new term. */
  lemma WinStep(c: Cluster, e: Event, hist: History) returns (hist': History)
    requires Inv(c, hist) && Enabled(c, e)
    requires !c.nodes[Actor(e)].role.Leader? && EffectOf(c, e).node.role.Leader?
    requires EffectOf(c, e).node.currentTerm !in hist.messages
    ensures Inv(Step(c, e), hist') && Grows(hist, hist')
    ensures hist'.messages.Keys == hist.messages.Keys + {EffectOf(c, e).node.currentTerm}
  {
    var p, m := Actor(e), EffectOf(c, e).node;
    var n, t := c.nodes[p], m.currentTerm;
    NewLeaderComesFromTermBefore(c, e, p, t);
    assert m.log == Step(c, e).nodes[p].log == n.log;
    hist' := Opened(hist, t, n.log);
    OpenedGrows(hist, t, n.log);
    RequestsGrow(hist, hist', c.nextId, c.nextId);
    WinnerOk(n, m, hist);
    forall x | x in c.nodes && x != p && c.nodes[x].role.Leader?
      ensures LeaderOk(c.nodes[x], hist')
    {
      OtherLeaders(c.nodes[x], hist, t, n.log);
    }
    WinQuiet(c, e);
    AssembleInv(c, e, hist, hist');
  }

  lemma WinQuiet(c: Cluster, e: Event)
    requires Enabled(c, e) && !c.nodes[Actor(e)].role.Leader? && EffectOf(c, e).node.role.Leader?
    ensures EffectOf(c, e).out == {} && Step(c, e).nextId == c.nextId
  {
  }

  /** A heartbeat whose entries are collected without a hole adds one request. */
  lemma HeartbeatStep(c: Cluster, e: Event, hist: History) returns (hist': History)
    requires Inv(c, hist) && Enabled(c, e) && e.Heartbeat?
    requires ClosedUpward(c.nodes[e.peer].log.entries, NextIndex(c.nodes[e.peer], e.to), c.nodes[e.peer].log.nextIndex)
    ensures Inv(Step(c, e), hist') && Grows(hist, hist') && hist'.messages == hist.messages
  {
    var n := c.nodes[e.peer];
    assert NodeOk(n, hist) && RequestsKnown(hist, c.nextId);
    hist' := SentHistory(n, e.to, e.now, c.nextId, hist);
    assert EffectOf(c, e) == LeaderSend(n, e.to, e.now, c.nextId) && Step(c, e).nextId == c.nextId + 1;
    forall p | p in c.nodes && p != e.peer && c.nodes[p].role.Leader?
      ensures LeaderOk(c.nodes[p], hist')
    {
      assert NodeOk(c.nodes[p], hist);
      SameMessagesOk(c.nodes[p], hist, hist');
    }
    hide EffectOf, LeaderSend, NodeOk, LeaderOk, ChunkOk, RequestOk, Has;
    AssembleInv(c, e, hist, hist');
  }

  lemma SameMessagesOk(n: Node, hist: History, hist': History)
    requires NodeOk(n, hist) && hist'.messages == hist.messages
    ensures LeaderOk(n, hist')
  {
  }

  /** The history with the request a leader sends, if it sends entries. */
  lemma SentHistory(n: Node, to: PeerId, now: int, id: RequestId, hist: History) returns (hist': History)
    requires n.role.Leader? && NodeOk(n, hist) && RequestsKnown(hist, id)
    requires ClosedUpward(n.log.entries, NextIndex(n, to), n.log.nextIndex)
    ensures Grows(hist, hist') && hist'.messages == hist.messages && RequestsKnown(hist', id + 1)
    ensures NodeOk(LeaderSend(n, to, now, id).node, hist')
    ensures forall x :: Append(x) in LeaderSend(n, to, now, id).out ==> ChunkOk(x, hist')
  {
    var collected := Collect(n.log.entries, NextIndex(n, to), n.log.nextIndex);
    var r := Request(HeaderFor(n, to, id), MessagesOf(collected));
    if Waiting(n, to, now) || r.es == [] {
      hist' := hist;
      RequestsGrow(hist, hist', id, id + 1);
    } else {
      hist' := hist.(requests := hist.requests[id := r]);
      ClosedCollectsSuffix(n.log.entries, NextIndex(n, to), n.log.nextIndex);
      NewRequestOk(n, collected, r, hist');
      assert Grows(hist, hist');
      OneMoreRequest(hist, id, r, hist');
    }
    hide Collect, MessagesOf, RequestsKnown, ClosedUpward;
    NodeOkGrows(n, hist, hist');
  }

  lemma OneMoreRequest(hist: History, id: RequestId, r: Request, hist': History)
    requires RequestsKnown(hist, id) && hist' == hist.(requests := hist.requests[id := r]) && Grows(hist, hist')
    requires r.h.requestId == id && RequestOk(r, hist')
    ensures RequestsKnown(hist', id + 1)
  {
    hide RequestOk, Grows;
    forall x | x in hist.requests && x != id
      ensures RequestOk(hist.requests[x], hist')
    {
      RequestOkGrows(hist.requests[x], hist, hist');
    }
  }

  lemma NewRequestOk(n: Node, collected: seq<LogEntry>, r: Request, hist: History)
    requires n.role.Leader? && LeaderOk(n, hist)
    requires EndsAt(collected, n.log.entries, n.log.nextIndex) && collected != []
    requires r.es == MessagesOf(collected) && r.h.term == n.currentTerm && r.h.leaderNextIndex == n.log.nextIndex
    ensures RequestOk(r, hist)
  {
    forall i | 0 <= i < |r.es|
      ensures Has(hist, r.h.term, r.h.leaderNextIndex - |r.es| + i, r.es[i])
    {
      var e := collected[i];
      assert n.log.nextIndex - |collected| + i in n.log.entries;
      assert e == n.log.entries[n.log.nextIndex - |collected| + i];
    }
  }

  // ---------- runs ----------

  /** Every heartbeat collects its entries without a hole. */
  ghost predicate SendsWithoutHoles(tr: seq<Cluster>, es: seq<Event>) {
    |tr| == |es| + 1 &&
    forall i :: 0 <= i < |es| && Enabled(tr[i], es[i]) && es[i].Heartbeat? ==>
      var n := tr[i].nodes[es[i].peer];
      ClosedUpward(n.log.entries, NextIndex(n, es[i].to), n.log.nextIndex)
  }

  ghost predicate OneLeaderPerTerm(tr: seq<Cluster>) {
    forall i, j, p, p', t :: 0 <= i < |tr| && 0 <= j < |tr| && Leads(tr[i], p, t) && Leads(tr[j], p', t) ==> p == p'
  }

  /** Every term of the history had its leader by step `j`. */
  ghost predicate TermsLed(tr: seq<Cluster>, j: nat, hist: History) {
    forall t :: t in hist.messages ==> exists i, p :: 0 <= i <= j && i < |tr| && Leads(tr[i], p, t)
  }

  lemma TermsLedLater(tr: seq<Cluster>, j: nat, hist: History, hist': History)
    requires TermsLed(tr, j, hist) && hist'.messages.Keys == hist.messages.Keys
    ensures TermsLed(tr, j + 1, hist')
  {
    forall t | t in hist'.messages
      ensures exists i, p :: 0 <= i <= j + 1 && i < |tr| && Leads(tr[i], p, t)
    {
      assert t in hist.messages;
      var i, p :| 0 <= i <= j && i < |tr| && Leads(tr[i], p, t);
    }
  }

  /** A term won now was not led before. */
  lemma WonTermIsNew(tr: seq<Cluster>, es: seq<Event>, j: nat, hist: History)
    requires IsRun(tr, es) && FixedMembership(tr[0]) && OneLeaderPerTerm(tr) && j < |es| && TermsLed(tr, j, hist)
    requires Enabled(tr[j], es[j])
    requires !tr[j].nodes[Actor(es[j])].role.Leader? && EffectOf(tr[j], es[j]).node.role.Leader?
    ensures EffectOf(tr[j], es[j]).node.currentTerm !in hist.messages
    ensures Leads(tr[j + 1], Actor(es[j]), EffectOf(tr[j], es[j]).node.currentTerm)
  {
    var p, t := Actor(es[j]), EffectOf(tr[j], es[j]).node.currentTerm;
    assert Leads(tr[j + 1], p, t);
    if t in hist.messages {
      var i, q :| 0 <= i <= j && i < |tr| && Leads(tr[i], q, t);
      assert q == p;
      NewLeaderComesFromTermBefore(tr[j], es[j], p, t);
      RunMonotone(tr, es, i, j);
      assert false;
    }
  }

  lemma StepKeepsInv(tr: seq<Cluster>, es: seq<Event>, j: nat, hist: History) returns (hist': History)
    requires IsRun(tr, es) && FixedMembership(tr[0]) && OneLeaderPerTerm(tr) && SendsWithoutHoles(tr, es)
    requires j < |es| && Inv(tr[j], hist) && TermsLed(tr, j, hist)
    ensures Inv(tr[j + 1], hist') && Grows(hist, hist') && TermsLed(tr, j + 1, hist')
  {
    hide EffectOf, NodeOk, LeaderOk, ChunkOk, RequestOk;
    var c, e := tr[j], es[j];
    hist' := hist;
    assert tr[j + 1] == Step(c, e);
    TermsLedLater(tr, j, hist, hist);
    if Enabled(c, e) {
      if e.Heartbeat? {
        hist' := HeartbeatStep(c, e, hist);
        TermsLedLater(tr, j, hist, hist');
      } else if e.Propose? && c.nodes[e.peer].role.Leader? {
        assert Leads(tr[j], e.peer, c.nodes[e.peer].currentTerm);
        hist' := ProposeStep(c, e, hist);
        TermsLedLater(tr, j, hist, hist');
      } else if !c.nodes[Actor(e)].role.Leader? && EffectOf(c, e).node.role.Leader? {
        WonTermIsNew(tr, es, j, hist);
        hist' := WinStep(c, e, hist);
      } else if e.Propose? {
        IdleProposal(c, e, hist);
      } else {
        QuietStep(c, e, hist);
        QuietSends(c, e);
        QuietLeaders(c, hist);
        AssembleInv(c, e, hist, hist);
      }
    }
  }

  lemma IdleProposal(c: Cluster, e: Event, hist: History)
    requires Inv(c, hist) && Enabled(c, e) && e.Propose? && !c.nodes[e.peer].role.Leader?
    ensures Inv(Step(c, e), hist)
  {
    assert Step(c, e).nodes == c.nodes;
  }

  lemma QuietSends(c: Cluster, e: Event)
    requires Enabled(c, e) && !e.Heartbeat?
    ensures forall x :: Append(x) !in EffectOf(c, e).out
    ensures Step(c, e).nextId == c.nextId
  {
  }

  lemma QuietLeaders(c: Cluster, hist: History)
    requires Inv(c, hist)
    ensures forall p :: p in c.nodes && c.nodes[p].role.Leader? ==> LeaderOk(c.nodes[p], hist)
  {
    forall p | p in c.nodes && c.nodes[p].role.Leader?
      ensures LeaderOk(c.nodes[p], hist)
    {
      assert NodeOk(c.nodes[p], hist);
    }
  }

  ghost predicate AllStamped(c: Cluster, hist: History) {
    forall p :: p in c.nodes ==> StampedOk(c.nodes[p].log, hist)
  }

  /** One history explains the logs at step `i` and at step `j`. */
  lemma {:induction false} CommonHistory(tr: seq<Cluster>, es: seq<Event>, i: nat, j: nat) returns (hist: History)
    requires IsRun(tr, es) && Fresh(tr[0]) && OneLeaderPerTerm(tr) && SendsWithoutHoles(tr, es)
    requires i <= j < |tr|
    ensures Inv(tr[j], hist) && TermsLed(tr, j, hist) && AllStamped(tr[i], hist)
    decreases j
  {
    if j == 0 {
      hist := FreshHistory(tr);
    } else {
      hide Inv, TermsLed, AllStamped, OneLeaderPerTerm, SendsWithoutHoles, Step, Grows;
      var before := CommonHistory(tr, es, if i == j then j - 1 else i, j - 1);
      hist := StepKeepsInv(tr, es, j - 1, before);
      if i == j {
        InvStamps(tr[j], hist);
      } else {
        StampsGrow(tr[i], before, hist);
      }
    }
  }

  lemma FreshHistory(tr: seq<Cluster>) returns (hist: History)
    requires |tr| > 0 && Fresh(tr[0])
    ensures Inv(tr[0], hist) && TermsLed(tr, 0, hist) && AllStamped(tr[0], hist)
  {
    hist := History(map[], map[]);
  }

  lemma InvStamps(c: Cluster, hist: History)
    requires Inv(c, hist)
    ensures AllStamped(c, hist)
  {
    assert forall p :: p in c.nodes ==> NodeOk(c.nodes[p], hist);
  }

  lemma StampsGrow(c: Cluster, a: History, b: History)
    requires AllStamped(c, a) && Grows(a, b)
    ensures AllStamped(c, b)
  {
    hide Has;
  }

  /** Agreement by stamp: in every run with at most one leader a term and no hole in what leaders
      send, an index and a term determine the message, across all peers and over all time. */
  lemma StampsAgree(tr: seq<Cluster>, es: seq<Event>, i: nat, j: nat, p: PeerId, q: PeerId, k: int)
    requires IsRun(tr, es) && Fresh(tr[0]) && OneLeaderPerTerm(tr) && SendsWithoutHoles(tr, es)
    requires i < |tr| && j < |tr| && p in tr[i].nodes && q in tr[j].nodes
    requires k in tr[i].nodes[p].log.entries && k in tr[j].nodes[q].log.entries
    requires tr[i].nodes[p].log.entries[k].term == tr[j].nodes[q].log.entries[k].term
    ensures tr[i].nodes[p].log.entries[k].entry == tr[j].nodes[q].log.entries[k].entry
  {
    var a, b := if i < j then i else j, if i < j then j else i;
    var hist := CommonHistory(tr, es, a, b);
    assert NodeOk(tr[b].nodes[if i < j then q else p], hist);
    assert Has(hist, tr[i].nodes[p].log.entries[k].term, k, tr[i].nodes[p].log.entries[k].entry);
    assert Has(hist, tr[j].nodes[q].log.entries[k].term, k, tr[j].nodes[q].log.entries[k].entry);
  }

  lemma FaithfulMeansOneLeader(tr: seq<Cluster>, es: seq<Event>)
    requires IsRun(tr, es) && Fresh(tr[0]) && Faithful(tr)
    ensures OneLeaderPerTerm(tr)
  {
    forall x, y, s, s', t | 0 <= x < |tr| && 0 <= y < |tr| && Leads(tr[x], s, t) && Leads(tr[y], s', t)
      ensures s == s'
    {
      AtMostOneLeaderPerTerm(tr, es, x, y, s, s', t);
    }
  }

  /** The same from the condition on the voters alone: elections and replication together. */
  lemma FaithfulRunsAgree(tr: seq<Cluster>, es: seq<Event>, i: nat, j: nat, p: PeerId, q: PeerId, k: int)
    requires IsRun(tr, es) && Fresh(tr[0]) && Faithful(tr) && SendsWithoutHoles(tr, es)
    requires i < |tr| && j < |tr| && p in tr[i].nodes && q in tr[j].nodes
    requires k in tr[i].nodes[p].log.entries && k in tr[j].nodes[q].log.entries
    requires tr[i].nodes[p].log.entries[k].term == tr[j].nodes[q].log.entries[k].term
    ensures tr[i].nodes[p].log.entries[k].entry == tr[j].nodes[q].log.entries[k].entry
  {
    FaithfulMeansOneLeader(tr, es);
    StampsAgree(tr, es, i, j, p, q, k);
  }
}
