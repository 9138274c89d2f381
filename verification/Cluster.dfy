/**
 The cluster: peers and the packets ever sent.  A packet may be delivered any number of times,
 at any later time and in any order, or never, so the network loses, duplicates, delays and
 reorders.  Timers fire whenever the run says so.
 */
module Cluster {
  import opened Messages
  import opened RaftLogs
  import opened AppendEntriesRequests
  import opened RaftNode

  datatype Cluster = Cluster(nodes: map<PeerId, Node>, net: set<Packet>, nextId: RequestId)

  datatype Event =
    | Deliver(packet: Packet, now: int)
    | Tick(peer: PeerId, timedOut: bool)
    | Heartbeat(peer: PeerId, to: PeerId, now: int)
    | Propose(peer: PeerId, m: Message, now: int)

  function Receive(n: Node, packet: Packet, now: int): Effect {
    match n.role
    case Follower(_) => (
      match packet
      case Append(c) => FollowerOnChunk(n, c, now)
      case Vote(r) => FollowerOnVote(n, r)
      case _ => Effect(n, {}))
    case Candidate(_, _, _, _) => (
      match packet
      case Append(c) => Effect(CandidateOnChunk(n, c), {})
      case VoteReply(r) => Effect(CandidateOnVoteReply(n, r), {})
      case _ => Effect(n, {}))
    case Leader(_) => (
      match packet
      case Append(c) => Effect(LeaderOnChunk(n, c), {})
      case AppendReply(r) => Effect(LeaderOnReply(n, r, now), {})
      case _ => Effect(n, {}))
  }

  function TickNode(n: Node, timedOut: bool): Effect {
    match n.role
    case Follower(_) => Effect(FollowerTick(n, timedOut), {})
    case Candidate(_, _, _, _) => CandidateTick(n, timedOut)
    case Leader(_) => Effect(LeaderTick(n), {})
  }

  /** The peer an event happens at. */
  function Actor(e: Event): PeerId {
    match e
    case Deliver(packet, _) => packet.Destination()
    case Tick(p, _) => p
    case Heartbeat(p, _, _) => p
    case Propose(p, _, _) => p
  }

  predicate Enabled(c: Cluster, e: Event) {
    && Actor(e) in c.nodes
    && (e.Deliver? ==> e.packet in c.net)
    && (e.Heartbeat? ==> c.nodes[e.peer].role.Leader? && e.to in c.nodes[e.peer].peers)
  }

  function EffectOf(c: Cluster, e: Event): Effect
    requires Enabled(c, e)
  {
    var n := c.nodes[Actor(e)];
    match e
    case Deliver(packet, now) => Receive(n, packet, now)
    case Tick(_, timedOut) => TickNode(n, timedOut)
    case Heartbeat(_, to, now) => LeaderSend(n, to, now, c.nextId)
    case Propose(_, m, now) => Effect(SubmitTo(n, m, now), {})
  }

  function Step(c: Cluster, e: Event): Cluster {
    if Enabled(c, e) then
      var f := EffectOf(c, e);
      Cluster(c.nodes[Actor(e) := f.node], c.net + f.out, c.nextId + if e.Heartbeat? then 1 else 0)
    else c
  }

  /** `tr` lists the states of a run, `es` the events between them. */
  ghost predicate IsRun(tr: seq<Cluster>, es: seq<Event>) {
    |tr| == |es| + 1 && forall i :: 0 <= i < |es| ==> tr[i + 1] == Step(tr[i], es[i])
  }

  ghost predicate FixedMembership(c: Cluster) {
    forall p :: p in c.nodes ==> c.nodes[p].id == p && c.nodes[p].peers == c.nodes.Keys - {p}
  }

  predicate Leads(c: Cluster, p: PeerId, term: int) {
    p in c.nodes && c.nodes[p].role.Leader? && c.nodes[p].currentTerm == term
  }

  /** All peers are new: nothing stored, nothing sent. */
  ghost predicate Fresh(c: Cluster) {
    && FixedMembership(c)
    && c.net == {}
    && forall p :: p in c.nodes ==>
         c.nodes[p].currentTerm == 0 && c.nodes[p].votedFor == None
         && c.nodes[p].log == EMPTY_LOG && c.nodes[p].role == Follower(map[]) && c.nodes[p].commits == []
         && c.nodes[p].nextIndexes == map[] && c.nodes[p].matchIndexes == map[]
  }

  // ---------- what every step does to one peer ----------

  /** Identity, membership and configuration never change; terms only grow. */
  ghost predicate SameIdentity(n: Node, m: Node) {
    m.id == n.id && m.peers == n.peers && m.config == n.config && n.currentTerm <= m.currentTerm
  }

  lemma UpdateCommitFacts(n: Node, leaderCommit: int, now: int)
    ensures var m := UpdateCommitIndex(n, leaderCommit, now);
      && m == n.(log := m.log, commits := m.commits)
      && (WellFormed(n.log) ==> WellFormed(m.log) && m.log.nextIndex == n.log.nextIndex)
  {
    if WellFormed(n.log) {
      CommitKeeps(n.log, Min(n.log.nextIndex - 1, leaderCommit), n.config.expirationTimeInMs, now);
    }
  }

  lemma InstalledKeeps(s: LogState, start: int, es: seq<Message>, term: int, now: int)
    requires WellFormed(s)
    ensures var t := Applied(GapReset(s, start), start, es, term, now);
      WellFormed(t) && s.nextIndex <= t.nextIndex
  {
    GapResetKeeps(s, start);
    ApplyLoopTotal(GapReset(s, start), start, es, term, now);
  }

  lemma InstallFacts(n: Node, a: Assembler, c: AppendChunk, now: int)
    ensures var m := Install(n, a, c, now).node;
      && m == n.(log := m.log, commits := m.commits)
      && (WellFormed(n.log) ==> WellFormed(m.log) && n.log.nextIndex <= m.log.nextIndex)
  {
    hide Applied, GapReset, WellFormed, UpdateCommitIndex;
    var start := a.leaderNextIndex - |a.entriesList|;
    var log := Applied(GapReset(n.log, start), start, a.entriesList, n.currentTerm, now);
    if WellFormed(n.log) {
      InstalledKeeps(n.log, start, a.entriesList, n.currentTerm, now);
    }
    UpdateCommitFacts(n.(log := log), c.leaderCommit, now);
  }

  lemma FollowerChunkFacts(n: Node, c: AppendChunk, now: int)
    requires n.role.Follower?
    ensures var m := FollowerOnChunk(n, c, now).node;
      && SameIdentity(n, m)
      && m.role.Follower?
      && m.currentTerm == Max(n.currentTerm, c.term)
      && m.votedFor == (if n.currentTerm < c.term then None else n.votedFor)
      && (WellFormed(n.log) ==> WellFormed(m.log) && n.log.nextIndex <= m.log.nextIndex)
  {
    var m := Adopt(n, c);
    if c.term < n.currentTerm {
    } else if !IsKeepAlive(c) {
      var before := PendingFor(m, c.requestId);
      var a := AddChunk(before, c);
      if !Throws(before, c) && a.ready {
        InstallFacts(m.(role := Follower(m.role.pending - {c.requestId})), a, c, now);
      }
    } else {
      UpdateCommitFacts(m, c.leaderCommit, now);
    }
  }

  lemma LeaderReplyFacts(n: Node, r: AppendResponse, now: int)
    requires n.role.Leader?
    ensures var m := LeaderOnReply(n, r, now);
      && SameIdentity(n, m) && m.currentTerm == n.currentTerm && m.votedFor == n.votedFor
      && !m.role.Candidate?
      && (m.role.Leader? <==> r.term <= n.currentTerm)
      && (WellFormed(n.log) ==> WellFormed(m.log) && n.log.nextIndex == m.log.nextIndex)
  {
    var m := RecordReply(n, r);
    if WellFormed(n.log) {
      CommitKeeps(m.log, BestCommit(m, Min(m.log.nextIndex, r.peerNextIndex)), m.config.expirationTimeInMs, now);
    }
  }

  lemma ReceiveIdentity(n: Node, packet: Packet, now: int)
    ensures SameIdentity(n, Receive(n, packet, now).node)
  {
    if n.role.Follower? && packet.Append? {
      FollowerChunkFacts(n, packet.chunk, now);
    } else if n.role.Leader? && packet.AppendReply? {
      LeaderReplyFacts(n, packet.response, now);
    }
  }

  lemma EffectIdentity(c: Cluster, e: Event)
    requires Enabled(c, e)
    ensures SameIdentity(c.nodes[Actor(e)], EffectOf(c, e).node)
  {
    if e.Deliver? {
      ReceiveIdentity(c.nodes[Actor(e)], e.packet, e.now);
    }
  }

  lemma StepMembership(c: Cluster, e: Event)
    requires FixedMembership(c)
    ensures FixedMembership(Step(c, e))
    ensures Step(c, e).nodes.Keys == c.nodes.Keys
    ensures c.net <= Step(c, e).net
    ensures forall p :: p in c.nodes ==> c.nodes[p].currentTerm <= Step(c, e).nodes[p].currentTerm
  {
    if Enabled(c, e) {
      EffectIdentity(c, e);
    }
  }

  /** A peer becomes leader of a term only from the term right before it. */
  lemma NewLeaderComesFromTermBefore(c: Cluster, e: Event, p: PeerId, term: int)
    requires p in c.nodes
    requires !Leads(c, p, term) && Leads(Step(c, e), p, term)
    ensures Enabled(c, e) && Actor(e) == p && e.Deliver? && e.packet.VoteReply?
    ensures c.nodes[p].role.Candidate? && c.nodes[p].role.electionTerm == term
    ensures c.nodes[p].currentTerm == term - 1
    ensures Step(c, e).nodes[p].log == c.nodes[p].log && Step(c, e).net == c.net
  {
  }

  lemma {:induction false} RunMonotone(tr: seq<Cluster>, es: seq<Event>, i: nat, j: nat)
    requires IsRun(tr, es) && i <= j < |tr| && FixedMembership(tr[0])
    ensures FixedMembership(tr[i]) && FixedMembership(tr[j])
    ensures tr[i].nodes.Keys == tr[0].nodes.Keys == tr[j].nodes.Keys
    ensures tr[i].net <= tr[j].net
    ensures forall p :: p in tr[i].nodes ==> tr[i].nodes[p].currentTerm <= tr[j].nodes[p].currentTerm
    decreases j
  {
    if i < j {
      RunMonotone(tr, es, i, j - 1);
      StepMembership(tr[j - 1], es[j - 1]);
    } else if 0 < j {
      RunMonotone(tr, es, j - 1, j - 1);
      StepMembership(tr[j - 1], es[j - 1]);
    }
  }

  // ---------- the log of a peer never shrinks from above ----------

  lemma EffectLog(c: Cluster, e: Event)
    requires Enabled(c, e) && WellFormed(c.nodes[Actor(e)].log)
    ensures WellFormed(EffectOf(c, e).node.log) && c.nodes[Actor(e)].log.nextIndex <= EffectOf(c, e).node.log.nextIndex
  {
    var n := c.nodes[Actor(e)];
    match e
    case Deliver(packet, now) =>
      if n.role.Follower? && packet.Append? {
        FollowerChunkFacts(n, packet.chunk, now);
      } else if n.role.Leader? && packet.AppendReply? {
        LeaderReplyFacts(n, packet.response, now);
      }
    case Propose(_, m, now) => SubmitKeeps(n.log, n.currentTerm, m, now);
    case _ =>
  }

  /** Every step keeps every log well formed and no next index ever decreases, whatever is delivered. */
  lemma StepLogs(c: Cluster, e: Event)
    requires LogsWellFormed(c)
    ensures forall p :: p in c.nodes ==> p in Step(c, e).nodes
    ensures LogsWellFormed(Step(c, e))
    ensures forall p :: p in c.nodes ==> c.nodes[p].log.nextIndex <= Step(c, e).nodes[p].log.nextIndex
  {
    if Enabled(c, e) {
      EffectLog(c, e);
    }
  }

  ghost predicate LogsWellFormed(c: Cluster) {
    forall p :: p in c.nodes ==> WellFormed(c.nodes[p].log)
  }

  lemma {:induction false} RunLogs(tr: seq<Cluster>, es: seq<Event>, i: nat, j: nat)
    requires IsRun(tr, es) && i <= j < |tr| && FixedMembership(tr[0]) && LogsWellFormed(tr[0])
    ensures LogsWellFormed(tr[i]) && LogsWellFormed(tr[j]) && tr[i].nodes.Keys == tr[j].nodes.Keys
    ensures forall p :: p in tr[i].nodes ==> tr[i].nodes[p].log.nextIndex <= tr[j].nodes[p].log.nextIndex
    decreases j
  {
    RunMonotone(tr, es, i, j);
    if i < j {
      RunLogs(tr, es, i, j - 1);
      StepLogs(tr[j - 1], es[j - 1]);
      RunMonotone(tr, es, i, j - 1);
    } else if 0 < j {
      RunLogs(tr, es, j - 1, j - 1);
      StepLogs(tr[j - 1], es[j - 1]);
    }
  }
}
