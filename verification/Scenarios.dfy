/** Concrete runs of a three-peer cluster, built one event at a time. */
module Scenarios {
  import opened Messages
  import opened RaftLogs
  import opened RaftNode
  import opened Cluster
  import opened Elections

  const A := PeerId(1)
  const B := PeerId(2)
  const C := PeerId(3)

  /** `C` may be configured never to stand; all logs expire alike; the run may be asked to be faithful, and to
      pass a given state. */
  datatype Setup = Setup(onlyFollower: bool, expirationTimeInMs: int, faithful: bool, via: Option<Cluster>)

  function Newcomer(id: PeerId, setup: Setup): Node {
    Node(id, {A, B, C} - {id}, Config(id == C && setup.onlyFollower, setup.expirationTimeInMs),
         0, None, None, map[], map[], EMPTY_LOG, Follower(map[]), [])
  }

  function Newcomers(setup: Setup): Cluster {
    Cluster(map[A := Newcomer(A, setup), B := Newcomer(B, setup), C := Newcomer(C, setup)], {}, 0)
  }

  /** A run of the new cluster that ends in `c`. */
  ghost predicate IsRunTo(setup: Setup, tr: seq<Cluster>, es: seq<Event>, c: Cluster) {
    && IsRun(tr, es) && tr[0] == Newcomers(setup) && tr[|es|] == c
    && (setup.faithful ==> Faithful(tr)) && (setup.via.Some? ==> setup.via.value in tr)
  }

  ghost predicate Reachable(setup: Setup, c: Cluster) {
    exists tr, es :: IsRunTo(setup, tr, es, c)
  }

  lemma NewcomersAreFresh(setup: Setup)
    ensures Fresh(Newcomers(setup)) && Newcomers(setup).nodes.Keys == {A, B, C}
  {
  }

  lemma Begin(setup: Setup) returns (c: Cluster)
    requires setup.via.None?
    ensures Reachable(setup, c) && c == Newcomers(setup)
  {
    c := Newcomers(setup);
    assert IsRunTo(setup, [c], [], c);
  }

  /** From here on the run is one that has passed `c`. */
  lemma Passing(setup: Setup, c: Cluster)
    requires Reachable(setup, c)
    ensures Reachable(setup.(via := Some(c)), c)
  {
    var tr, es :| IsRunTo(setup, tr, es, c);
    assert IsRunTo(setup.(via := Some(c)), tr, es, c);
  }

  lemma ReachableMembers(setup: Setup, c: Cluster)
    requires Reachable(setup, c)
    ensures FixedMembership(c) && c.nodes.Keys == {A, B, C}
  {
    var tr, es :| IsRunTo(setup, tr, es, c);
    NewcomersAreFresh(setup);
    RunMonotone(tr, es, 0, |es|);
  }

  // ---------- steps that keep faith ----------

  /** No vote, request or grant of a term above `term` involves `p`. */
  ghost predicate InvolvedUpTo(c: Cluster, p: PeerId, term: int) {
    forall t :: term < t ==> !Involved(c, p, t)
  }

  /** No vote request or vote of a term above `term` was sent. */
  ghost predicate VotesUpTo(net: set<Packet>, term: int) {
    && (forall r :: Vote(r) in net ==> r.term <= term)
    && (forall r :: VoteReply(r) in net ==> r.term <= term)
  }

  lemma VotesBoundInvolvement(c: Cluster, p: PeerId, term: int)
    requires VotesUpTo(c.net, term)
    ensures InvolvedUpTo(c, p, term)
  {
  }

  /** A step from `n` to `m` that cannot break faith: a recorded vote stays, or the peer is by then at every
      term it was involved in; a candidacy ends only at its own term. */
  ghost predicate Harmless(c: Cluster, n: Node, m: Node) {
    && (n.votedFor.None? || m.votedFor == n.votedFor || InvolvedUpTo(c, n.id, m.currentTerm))
    && (n.role.Candidate? ==> (m.role.Candidate? && m.role.electionTerm == n.role.electionTerm)
                              || n.role.electionTerm <= m.currentTerm)
  }

  lemma HarmlessKeepsFaith(c: Cluster, e: Event)
    requires FixedMembership(c)
    requires Enabled(c, e) ==> Harmless(c, c.nodes[Actor(e)], EffectOf(c, e).node)
    ensures KeepsFaith(c, Step(c, e))
  {
    hide EffectOf, Involved;
  }

  /** The cluster after a step with effect `f` at `p`. */
  function After(c: Cluster, p: PeerId, f: Effect): Cluster {
    Cluster(c.nodes[p := f.node], c.net + f.out, c.nextId)
  }

  lemma Advance(setup: Setup, c: Cluster, e: Event) returns (d: Cluster)
    requires Reachable(setup, c) && Enabled(c, e)
    requires setup.faithful ==> Harmless(c, c.nodes[Actor(e)], EffectOf(c, e).node)
    ensures Reachable(setup, d) && d == Step(c, e)
  {
    ReachableMembers(setup, c);
    var tr, es :| IsRunTo(setup, tr, es, c);
    d := Step(c, e);
    if setup.faithful {
      HarmlessKeepsFaith(c, e);
    }
    hide Step, EffectOf, Harmless, KeepsFaith, Enabled;
    var tr', es' := tr + [d], es + [e];
    forall i | 0 <= i < |es'|
      ensures tr'[i + 1] == Step(tr'[i], es'[i]) && (setup.faithful ==> KeepsFaith(tr'[i], tr'[i + 1]))
    {
      if i < |es| {
        assert tr'[i] == tr[i] && tr'[i + 1] == tr[i + 1] && es'[i] == es[i];
      } else {
        assert tr'[i] == c && tr'[i + 1] == d && es'[i] == e;
      }
    }
    if setup.via.Some? {
      var i :| 0 <= i < |tr| && tr[i] == setup.via.value;
      assert tr'[i] == tr[i];
    }
    assert IsRunTo(setup, tr', es', d);
  }

  // ---------- one step of each kind ----------

  lemma GetsChunk(setup: Setup, c: Cluster, x: AppendChunk, now: int) returns (d: Cluster)
    requires Reachable(setup, c) && Append(x) in c.net && x.peerId in c.nodes && c.nodes[x.peerId].role.Follower?
    requires setup.faithful ==> Harmless(c, c.nodes[x.peerId], FollowerOnChunk(c.nodes[x.peerId], x, now).node)
    ensures Reachable(setup, d) && d == After(c, x.peerId, FollowerOnChunk(c.nodes[x.peerId], x, now))
  {
    hide Reachable, Harmless, FollowerOnChunk;
    d := Advance(setup, c, Deliver(Append(x), now));
  }

  lemma LeaderGetsChunk(setup: Setup, c: Cluster, x: AppendChunk, now: int) returns (d: Cluster)
    requires Reachable(setup, c) && Append(x) in c.net && x.peerId in c.nodes && c.nodes[x.peerId].role.Leader?
    ensures Reachable(setup, d) && d == After(c, x.peerId, Effect(LeaderOnChunk(c.nodes[x.peerId], x), {}))
  {
    hide Reachable;
    d := Advance(setup, c, Deliver(Append(x), now));
  }

  lemma GetsVoteRequest(setup: Setup, c: Cluster, r: VoteRequest) returns (d: Cluster)
    requires Reachable(setup, c) && Vote(r) in c.net && r.peerId in c.nodes
    requires c.nodes[r.peerId].role.Follower? && c.nodes[r.peerId].votedFor.None?
    ensures Reachable(setup, d) && d == After(c, r.peerId, FollowerOnVote(c.nodes[r.peerId], r))
  {
    hide Reachable;
    d := Advance(setup, c, Deliver(Vote(r), 0));
  }

  lemma GetsVoteReply(setup: Setup, c: Cluster, r: VoteResponse, m: Node) returns (d: Cluster)
    requires Reachable(setup, c) && VoteReply(r) in c.net && r.destinationPeerId in c.nodes
    requires var n := c.nodes[r.destinationPeerId];
      n.role.Candidate? && m == CandidateOnVoteReply(n, r) && Harmless(c, n, m)
    ensures Reachable(setup, d) && d == After(c, r.destinationPeerId, Effect(m, {}))
  {
    hide Reachable, Harmless, CandidateOnVoteReply;
    d := Advance(setup, c, Deliver(VoteReply(r), 0));
  }

  lemma GetsReply(setup: Setup, c: Cluster, r: AppendResponse, now: int) returns (d: Cluster)
    requires Reachable(setup, c) && AppendReply(r) in c.net && r.destinationPeerId in c.nodes
    requires c.nodes[r.destinationPeerId].role.Leader?
    ensures Reachable(setup, d)
    ensures d == After(c, r.destinationPeerId, Effect(LeaderOnReply(c.nodes[r.destinationPeerId], r, now), {}))
  {
    hide Reachable, LeaderOnReply;
    LeaderReplyFacts(c.nodes[r.destinationPeerId], r, now);
    d := Advance(setup, c, Deliver(AppendReply(r), now));
  }

  lemma Ticks(setup: Setup, c: Cluster, p: PeerId, timedOut: bool) returns (d: Cluster)
    requires Reachable(setup, c) && p in c.nodes
    requires setup.faithful ==> Harmless(c, c.nodes[p], TickNode(c.nodes[p], timedOut).node)
    ensures Reachable(setup, d) && d == After(c, p, TickNode(c.nodes[p], timedOut))
  {
    hide Reachable, Harmless, TickNode;
    d := Advance(setup, c, Tick(p, timedOut));
  }

  lemma Sends(setup: Setup, c: Cluster, l: PeerId, to: PeerId, now: int) returns (d: Cluster)
    requires Reachable(setup, c) && l in c.nodes && c.nodes[l].role.Leader? && to in c.nodes[l].peers
    ensures Reachable(setup, d)
    ensures d == After(c, l, LeaderSend(c.nodes[l], to, now, c.nextId)).(nextId := c.nextId + 1)
  {
    hide Reachable;
    d := Advance(setup, c, Heartbeat(l, to, now));
  }

  lemma Submits(setup: Setup, c: Cluster, l: PeerId, m: Message, now: int) returns (d: Cluster)
    requires Reachable(setup, c) && l in c.nodes && c.nodes[l].role.Leader?
    ensures Reachable(setup, d) && d == c.(nodes := c.nodes[l := SubmitTo(c.nodes[l], m, now)])
  {
    hide Reachable;
    d := Advance(setup, c, Propose(l, m, now));
    assert d.net == c.net;
  }

  // ---------- one campaign ----------

  /** The vote request `x` sends to `C`. */
  function AskC(x: Node): VoteRequest {
    VoteRequest(x.currentTerm + 1, x.log.nextIndex - 1, x.currentTerm, C, x.id)
  }

  function Won(x: Node): Node {
    x.(currentTerm := x.currentTerm + 1, votedFor := None, leaderId := Some(x.id), role := Leader(map[]))
  }

  function Standing(x: Node): Node {
    x.(leaderId := None, votedFor := None, role := Candidate(x.currentTerm + 1, {x.id}, x.peers, true))
  }

  ghost predicate CanStand(n: Node) {
    && (n.id == A || n.id == B) && n.peers == {A, B, C} - {n.id}
    && n.role.Follower? && n.votedFor == None && !n.config.onlyFollower
  }

  /** Only votes of `term` were sent in between. */
  ghost predicate OnlyVotes(before: set<Packet>, after: set<Packet>, term: int) {
    && before <= after
    && forall p :: p in after && p !in before ==>
         (p.Vote? && p.request.term == term) || (p.VoteReply? && p.vote.term == term)
  }

  /** The second tick of a candidacy asks every peer. */
  lemma AsksAll(n: Node)
    requires CanStand(n)
    ensures var n1 := TickNode(n, true).node;
      && TickNode(n, true).out == {} && n1.role.Candidate? && n1.role.electionTerm == n.currentTerm + 1
      && TickNode(n1, false).node == Standing(n) && n1.votedFor == None
      && Vote(AskC(n)) in TickNode(n1, false).out
      && forall p :: p in TickNode(n1, false).out ==> p.Vote? && p.request.term == n.currentTerm + 1
  {
    assert C in n.peers;
    assert {} + n.peers == n.peers;
    var n1 := n.(leaderId := None, votedFor := None, role := Candidate(n.currentTerm + 1, {n.id}, {}, false));
    assert TickNode(n, true) == Effect(n1, {});
    assert C in n.peers - n1.role.notified;
  }

  /** `x` times out and asks for votes. */
  lemma Asks(setup: Setup, c: Cluster, x: PeerId) returns (d: Cluster)
    requires Reachable(setup, c) && x in c.nodes && CanStand(c.nodes[x])
    ensures Reachable(setup, d) && d.nodes == c.nodes[x := Standing(c.nodes[x])] && d.nextId == c.nextId
    ensures Vote(AskC(c.nodes[x])) in d.net && OnlyVotes(c.net, d.net, c.nodes[x].currentTerm + 1)
  {
    var n := c.nodes[x];
    AsksAll(n);
    hide Reachable, TickNode, CanStand;
    d := Ticks(setup, c, x, true);
    d := Ticks(setup, d, x, false);
  }

  /** With `C`'s vote and its own a candidate of three wins. */
  lemma VoteCounts(n: Node, yes: VoteResponse)
    requires CanStand(n) && yes == VoteResponse(n.currentTerm + 1, true, n.id, C)
    ensures CandidateOnVoteReply(Standing(n), yes) == Won(n)
  {
    assert |{n.id} + {C}| == 2;
    assert |n.peers| == 2 by {
      assert n.peers == if n.id == A then {B, C} else {A, C};
    }
  }

  lemma VoteGiven(voter: Node, n: Node)
    requires voter.votedFor == None && voter.log.commitIndex <= 0 && voter.currentTerm <= n.currentTerm
    ensures FollowerOnVote(voter, AskC(n)) ==
            Effect(voter.(votedFor := Some(n.id)), {VoteReply(VoteResponse(n.currentTerm + 1, true, n.id, C))})
  {
  }

  /** `C`, without a recorded vote, gives `x` its vote, and `x` leads. */
  lemma IsElected(setup: Setup, c: Cluster, n: Node) returns (d: Cluster)
    requires Reachable(setup, c) && C in c.nodes && n.id in c.nodes && CanStand(n)
    requires c.nodes[n.id] == Standing(n) && Vote(AskC(n)) in c.net
    requires var voter := c.nodes[C];
      && voter.role.Follower? && voter.votedFor == None && voter.log.commitIndex <= 0
      && voter.currentTerm <= n.currentTerm
    ensures Reachable(setup, d) && d.nextId == c.nextId
    ensures d.nodes == c.nodes[C := c.nodes[C].(votedFor := Some(n.id))][n.id := Won(n)]
    ensures OnlyVotes(c.net, d.net, n.currentTerm + 1)
  {
    var yes := VoteResponse(n.currentTerm + 1, true, n.id, C);
    VoteGiven(c.nodes[C], n);
    VoteCounts(n, yes);
    assert n.id != C;
    hide Reachable, FollowerOnVote, CandidateOnVoteReply, InvolvedUpTo;
    d := GetsVoteRequest(setup, c, AskC(n));
    d := GetsVoteReply(setup, d, yes, Won(n));
  }

  /** `x` stands for the next term, gets `C`'s vote and leads. */
  lemma Campaigns(setup: Setup, c: Cluster, x: PeerId) returns (d: Cluster)
    requires Reachable(setup, c) && x in c.nodes && C in c.nodes && CanStand(c.nodes[x]) && c.nodes[x].id == x
    requires var voter := c.nodes[C];
      && voter.role.Follower? && voter.votedFor == None && voter.log.commitIndex <= 0
      && voter.currentTerm <= c.nodes[x].currentTerm
    ensures Reachable(setup, d) && d.nextId == c.nextId
    ensures d.nodes == c.nodes[C := c.nodes[C].(votedFor := Some(x))][x := Won(c.nodes[x])]
    ensures OnlyVotes(c.net, d.net, c.nodes[x].currentTerm + 1)
  {
    hide Reachable, FollowerOnVote, CandidateOnVoteReply, TickNode;
    var n := c.nodes[x];
    d := Asks(setup, c, x);
    d := IsElected(setup, d, n);
    assert d.nodes == c.nodes[C := c.nodes[C].(votedFor := Some(x))][x := Won(n)];
  }

  // ---------- keep-alives ----------

  /** The chunk a heartbeat without entries sends. */
  function KeepAlive(n: Node, to: PeerId, id: RequestId): AppendChunk {
    HeaderFor(n, to, id).Chunk(0, true, None)
  }

  lemma NothingToSend(n: Node, to: PeerId, id: RequestId)
    requires n.role == Leader(map[]) && NextIndex(n, to) == n.log.nextIndex
    ensures LeaderSend(n, to, 0, id) == Effect(n, {Append(KeepAlive(n, to, id))})
  {
    assert Collect(n.log.entries, NextIndex(n, to), n.log.nextIndex) == [];
    assert n.role.sent - {to} == map[];
  }

  /** A heartbeat with nothing to send. */
  lemma Beats(setup: Setup, c: Cluster, l: PeerId, to: PeerId) returns (d: Cluster)
    requires Reachable(setup, c) && l in c.nodes && to in c.nodes[l].peers && c.nodes[l].role == Leader(map[])
    requires NextIndex(c.nodes[l], to) == c.nodes[l].log.nextIndex
    ensures Reachable(setup, d) && d.nodes == c.nodes && d.nextId == c.nextId + 1
    ensures d.net == c.net + {Append(KeepAlive(c.nodes[l], to, c.nextId))}
  {
    NothingToSend(c.nodes[l], to, c.nextId);
    hide Reachable, LeaderSend;
    d := Sends(setup, c, l, to, 0);
  }

  /** A peer that has stored nothing and follows `A` in term 1. */
  function FollowingA(id: PeerId, setup: Setup): Node {
    Newcomer(id, setup).(currentTerm := 1, leaderId := Some(A))
  }

  /** `A` leads term 1 and both others have joined it. */
  ghost predicate FirstLeader(setup: Setup, c: Cluster) {
    && c.nodes == map[A := Won(Newcomer(A, setup)), B := FollowingA(B, setup), C := FollowingA(C, setup)]
    && c.nextId == 2 && VotesUpTo(c.net, 1)
  }

  lemma JoinsTermOne(n: Node, x: AppendChunk, setup: Setup)
    requires n == Newcomer(B, setup) || n == Newcomer(C, setup).(votedFor := Some(A))
    requires x.entry.None? && x.sequence == 0 && x.lastMessage && x.term == 1 && x.leaderId == A && x.leaderCommit == -1
    ensures FollowerOnChunk(n, x, 0).node == FollowingA(n.id, setup)
    ensures forall p :: p in FollowerOnChunk(n, x, 0).out ==> p.AppendReply?
  {
    assert UpdateCommitIndex(Adopt(n, x), -1, 0) == Adopt(n, x) == FollowingA(n.id, setup);
  }

  lemma TermOne(setup: Setup) returns (c: Cluster)
    requires !setup.onlyFollower && setup.via.None?
    ensures Reachable(setup, c) && FirstLeader(setup, c)
  {
    c := Begin(setup);
    var a := Newcomer(A, setup);
    assert CanStand(a);
    hide Reachable, FollowerOnChunk;
    c := Campaigns(setup, c, A);
    c := Joins(setup, c, B);
    c := Joins(setup, c, C);
  }

  /** `A`, new as a leader, sends `p` a keep-alive, and `p` joins its term. */
  lemma Joins(setup: Setup, c: Cluster, p: PeerId) returns (d: Cluster)
    requires Reachable(setup, c) && A in c.nodes && c.nodes[A] == Won(Newcomer(A, setup)) && p in c.nodes && p != A
    requires c.nodes[p] == Newcomer(B, setup) || c.nodes[p] == Newcomer(C, setup).(votedFor := Some(A))
    requires c.nodes[p].id == p && VotesUpTo(c.net, 1)
    ensures Reachable(setup, d) && d.nodes == c.nodes[p := FollowingA(p, setup)] && d.nextId == c.nextId + 1
    ensures VotesUpTo(d.net, 1)
  {
    hide Reachable;
    var x := KeepAlive(c.nodes[A], p, c.nextId);
    JoinsTermOne(c.nodes[p], x, setup);
    d := Beats(setup, c, A, p);
    hide FollowerOnChunk, InvolvedUpTo;
    VotesBoundInvolvement(d, p, 1);
    d := GetsChunk(setup, d, x, 0);
  }
}
