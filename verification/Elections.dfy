/** At most one leader a term, under the condition the code needs for it, and what a winner holds. */
module Elections {
  import opened Messages
  import opened RaftLogs
  import opened RaftNode
  import opened Cluster

  /** `p` asked for votes in `term`. */
  ghost predicate Stood(c: Cluster, p: PeerId, term: int) {
    exists r: VoteRequest :: Vote(r) in c.net && r.candidateId == p && r.term == term
  }

  /** `q` answered `p`'s request for `term` with a vote. */
  predicate Granted(c: Cluster, q: PeerId, term: int, p: PeerId) {
    VoteReply(VoteResponse(term, true, p, q)) in c.net
  }

  ghost predicate Backs(c: Cluster, q: PeerId, term: int, p: PeerId) {
    if q == p then Stood(c, p, term) else Granted(c, q, term, p)
  }

  ghost predicate Involved(c: Cluster, p: PeerId, term: int) {
    Stood(c, p, term) || exists x :: Granted(c, p, term, x)
  }

  /** While its own term is still below a term it has stood or voted in, a peer neither loses its
      recorded vote nor leaves its candidacy for that term. */
  ghost predicate KeepsFaith(before: Cluster, after: Cluster) {
    forall p: PeerId, term: int ::
      p in before.nodes && p in after.nodes && Involved(before, p, term) && after.nodes[p].currentTerm < term ==>
      && (before.nodes[p].votedFor.Some? ==> after.nodes[p].votedFor == before.nodes[p].votedFor)
      && (before.nodes[p].role.Candidate? && before.nodes[p].role.electionTerm == term ==>
            after.nodes[p].role.Candidate? && after.nodes[p].role.electionTerm == term)
  }

  ghost predicate Faithful(tr: seq<Cluster>) {
    forall i :: 0 <= i < |tr| - 1 ==> KeepsFaith(tr[i], tr[i + 1])
  }

  // ---------- the invariant ----------

  ghost predicate RequestsOk(c: Cluster) {
    forall r :: Vote(r) in c.net ==> r.candidateId in c.nodes && r.peerId != r.candidateId
  }

  ghost predicate CandidateOk(c: Cluster, n: Node) {
    n.role.Candidate? ==>
      && n.role.electionTerm == n.currentTerm + 1
      && n.role.votes <= c.nodes.Keys
      && (n.role.started ==> n.peers <= n.role.notified)
      && (forall q: PeerId :: q in n.role.votes ==> q == n.id || Granted(c, q, n.role.electionTerm, n.id))
  }

  ghost predicate GrantsOk(c: Cluster) {
    forall q, term, p :: Granted(c, q, term, p) ==>
      && q in c.nodes && q != p && Stood(c, p, term) && !Stood(c, q, term)
      && (c.nodes[q].currentTerm < term ==> c.nodes[q].role.Follower? && c.nodes[q].votedFor == Some(p))
  }

  ghost predicate StandingOk(c: Cluster) {
    forall p, term :: p in c.nodes && Stood(c, p, term) && c.nodes[p].currentTerm < term ==>
      c.nodes[p].role.Candidate? && c.nodes[p].role.electionTerm == term
  }

  ghost predicate OneVoteEach(c: Cluster) {
    forall q, term, p, p' :: Granted(c, q, term, p) && Granted(c, q, term, p') ==> p == p'
  }

  /** A strict majority of the cluster backs `p` in `term`. */
  ghost predicate Elected(c: Cluster, p: PeerId, term: int) {
    exists voters: set<PeerId> :: IsMajorityFor(c, voters, p, term)
  }

  ghost predicate IsMajorityFor(c: Cluster, voters: set<PeerId>, p: PeerId, term: int) {
    voters <= c.nodes.Keys && |c.nodes.Keys| < |voters| * 2 && forall q: PeerId :: q in voters ==> Backs(c, q, term, p)
  }

  ghost predicate LeadersOk(c: Cluster) {
    forall p, term :: Leads(c, p, term) ==> Elected(c, p, term)
  }

  ghost predicate VotingInv(c: Cluster) {
    && FixedMembership(c)
    && RequestsOk(c)
    && (forall p :: p in c.nodes ==> CandidateOk(c, c.nodes[p]))
    && GrantsOk(c)
    && StandingOk(c)
    && OneVoteEach(c)
    && LeadersOk(c)
  }

  // ---------- one step keeps it ----------

  lemma StoodMonotone(c: Cluster, d: Cluster, p: PeerId, term: int)
    requires c.net <= d.net && Stood(c, p, term)
    ensures Stood(d, p, term)
  {
    var r: VoteRequest :| Vote(r) in c.net && r.candidateId == p && r.term == term;
    assert Vote(r) in d.net;
  }

  lemma BacksMonotone(c: Cluster, d: Cluster, q: PeerId, term: int, p: PeerId)
    requires c.net <= d.net && Backs(c, q, term, p)
    ensures Backs(d, q, term, p)
  {
    if q == p {
      StoodMonotone(c, d, p, term);
    }
  }

  lemma ElectedMonotone(c: Cluster, d: Cluster, p: PeerId, term: int)
    requires c.net <= d.net && c.nodes.Keys == d.nodes.Keys && Elected(c, p, term)
    ensures Elected(d, p, term)
  {
    var voters :| IsMajorityFor(c, voters, p, term);
    forall q | q in voters
      ensures Backs(d, q, term, p)
    {
      BacksMonotone(c, d, q, term, p);
    }
    assert IsMajorityFor(d, voters, p, term);
  }

  /** A new vote request comes from a candidate for its own election term. */
  lemma NewRequest(c: Cluster, e: Event, r: VoteRequest)
    requires Vote(r) !in c.net && Vote(r) in Step(c, e).net
    ensures Enabled(c, e) && e.Tick? && c.nodes[Actor(e)].role.Candidate?
    ensures var n := c.nodes[Actor(e)];
      r.term == n.role.electionTerm && r.candidateId == n.id && r.peerId in n.peers - n.role.notified
      && r.lastLogIndex == n.log.nextIndex - 1
  {
  }

  /** A new vote is a follower's answer to a request it received. */
  lemma NewGrant(c: Cluster, e: Event, q: PeerId, term: int, p: PeerId)
    requires !Granted(c, q, term, p) && Granted(Step(c, e), q, term, p)
    ensures Enabled(c, e) && Actor(e) == q && e.Deliver? && e.packet in c.net && e.packet.Vote?
    ensures c.nodes[q].role.Follower? && Grants(c.nodes[q], e.packet.request)
    ensures e.packet.request.term == term && e.packet.request.candidateId == p && e.packet.request.peerId == q
    ensures Step(c, e).nodes[q] == c.nodes[q].(votedFor := Some(p))
    ensures Step(c, e).nodes == c.nodes[q := c.nodes[q].(votedFor := Some(p))]
  {
  }

  lemma StepRequests(c: Cluster, e: Event)
    requires VotingInv(c)
    ensures RequestsOk(Step(c, e))
  {
    StepMembership(c, e);
    forall r | Vote(r) in Step(c, e).net
      ensures r.candidateId in Step(c, e).nodes && r.peerId != r.candidateId
    {
      if Vote(r) !in c.net {
        NewRequest(c, e, r);
      }
    }
  }

  lemma ActorCandidate(c: Cluster, e: Event)
    requires VotingInv(c) && Enabled(c, e)
    ensures CandidateOk(Step(c, e), Step(c, e).nodes[Actor(e)])
  {
    var n, d := c.nodes[Actor(e)], Step(c, e);
    StepMembership(c, e);
    assert CandidateOk(c, n) && n.id == Actor(e) && n.peers <= c.nodes.Keys;
    EffectCandidate(c, e);
    assert forall q, t, p :: Granted(c, q, t, p) ==> Granted(d, q, t, p);
    hide EffectOf, VotingInv;
  }

  lemma EffectCandidate(c: Cluster, e: Event)
    requires Enabled(c, e)
    requires var n := c.nodes[Actor(e)];
      CandidateOk(c, n) && n.id == Actor(e) && n.id in c.nodes && n.peers <= c.nodes.Keys
    ensures CandidateOk(c, EffectOf(c, e).node)
  {
    var n := c.nodes[Actor(e)];
    hide FollowerOnChunk, LeaderOnReply, CandidateOnVoteReply;
    match e {
      case Deliver(packet, now) =>
        if n.role.Follower? && packet.Append? {
          FollowerChunkFacts(n, packet.chunk, now);
        } else if n.role.Leader? && packet.AppendReply? {
          LeaderReplyFacts(n, packet.response, now);
        } else if n.role.Candidate? && packet.VoteReply? {
          VoteArrives(c, n, packet.vote);
        }
      case _ =>
    }
  }

  /** A vote counted by a candidate is one it was granted. */
  lemma VoteArrives(c: Cluster, n: Node, r: VoteResponse)
    requires n.role.Candidate? && CandidateOk(c, n) && VoteReply(r) in c.net && r.destinationPeerId == n.id
    requires n.peers <= c.nodes.Keys
    ensures CandidateOk(c, CandidateOnVoteReply(n, r))
    ensures r.voteGranted && r.term == n.role.electionTerm ==> Granted(c, r.sourcePeerId, r.term, n.id)
  {
    assert r == VoteResponse(r.term, r.voteGranted, r.destinationPeerId, r.sourcePeerId);
  }

  lemma StepCandidates(c: Cluster, e: Event)
    requires VotingInv(c)
    ensures forall p :: p in Step(c, e).nodes ==> CandidateOk(Step(c, e), Step(c, e).nodes[p])
  {
    StepMembership(c, e);
    var d := Step(c, e);
    forall p | p in d.nodes
      ensures CandidateOk(d, d.nodes[p])
    {
      if Enabled(c, e) && p == Actor(e) {
        ActorCandidate(c, e);
      } else {
        assert d.nodes[p] == c.nodes[p];
        assert forall q, t, x :: Granted(c, q, t, x) ==> Granted(d, q, t, x);
      }
    }
  }

  lemma StepStanding(c: Cluster, e: Event)
    requires VotingInv(c) && KeepsFaith(c, Step(c, e))
    ensures StandingOk(Step(c, e))
  {
    StepMembership(c, e);
    var d := Step(c, e);
    forall p, term | p in d.nodes && Stood(d, p, term) && d.nodes[p].currentTerm < term
      ensures d.nodes[p].role.Candidate? && d.nodes[p].role.electionTerm == term
    {
      if Stood(c, p, term) {
        assert Involved(c, p, term);
      } else {
        var r: VoteRequest :| Vote(r) in d.net && r.candidateId == p && r.term == term;
        NewRequest(c, e, r);
        assert CandidateOk(c, c.nodes[p]);
      }
    }
  }

  lemma TickGrantsNothing(c: Cluster, e: Event, q: PeerId, term: int, p: PeerId)
    requires Granted(Step(c, e), q, term, p) && e.Tick?
    ensures Granted(c, q, term, p)
  {
  }

  /** A peer that just voted in `term` has not stood in it, before or in this step. */
  lemma VoterDidNotStand(c: Cluster, e: Event, q: PeerId, term: int, p: PeerId)
    requires VotingInv(c) && q in c.nodes && Granted(Step(c, e), q, term, p)
    ensures !Stood(Step(c, e), q, term)
  {
    var d := Step(c, e);
    if Stood(d, q, term) {
      var r: VoteRequest :| Vote(r) in d.net && r.candidateId == q && r.term == term;
      if Vote(r) !in c.net {
        assert CandidateOk(c, c.nodes[q]);
        NewRequest(c, e, r);
        TickGrantsNothing(c, e, q, term, p);
        assert false;
      } else {
        assert Stood(c, q, term);
        NewGrant(c, e, q, term, p);
        assert false;
      }
    }
  }

  lemma StepGrants(c: Cluster, e: Event)
    requires VotingInv(c) && KeepsFaith(c, Step(c, e))
    ensures GrantsOk(Step(c, e))
  {
    StepMembership(c, e);
    var d := Step(c, e);
    forall q, term, p | Granted(d, q, term, p)
      ensures q in d.nodes && q != p && Stood(d, p, term) && !Stood(d, q, term)
      ensures d.nodes[q].currentTerm < term ==> d.nodes[q].role.Follower? && d.nodes[q].votedFor == Some(p)
    {
      if Granted(c, q, term, p) {
        StoodMonotone(c, d, p, term);
        VoterDidNotStand(c, e, q, term, p);
        if d.nodes[q].currentTerm < term {
          assert Involved(c, q, term);
          VoterStaysFollower(c, e, q);
        }
      } else {
        NewGrant(c, e, q, term, p);
        assert Stood(c, p, term);
        StoodMonotone(c, d, p, term);
        VoterDidNotStand(c, e, q, term, p);
      }
    }
  }

  /** A follower that keeps its recorded vote stays a follower. */
  lemma VoterStaysFollower(c: Cluster, e: Event, q: PeerId)
    requires q in c.nodes && c.nodes[q].role.Follower? && c.nodes[q].votedFor.Some?
    requires Step(c, e).nodes[q].votedFor == c.nodes[q].votedFor
    ensures Step(c, e).nodes[q].role.Follower?
  {
    if Enabled(c, e) && Actor(e) == q && e.Deliver? && e.packet.Append? {
      FollowerChunkFacts(c.nodes[q], e.packet.chunk, e.now);
    }
  }

  lemma StepOneVote(c: Cluster, e: Event)
    requires VotingInv(c)
    ensures OneVoteEach(Step(c, e))
  {
    var d := Step(c, e);
    forall q, term, p, p' | Granted(d, q, term, p) && Granted(d, q, term, p')
      ensures p == p'
    {
      if !Granted(c, q, term, p) {
        NewGrant(c, e, q, term, p);
      }
      if !Granted(c, q, term, p') {
        NewGrant(c, e, q, term, p');
      }
    }
  }

  lemma WinnerElected(c: Cluster, e: Event, p: PeerId, term: int)
    requires VotingInv(c) && p in c.nodes && !Leads(c, p, term) && Leads(Step(c, e), p, term)
    ensures Elected(Step(c, e), p, term)
  {
    NewLeaderComesFromTermBefore(c, e, p, term);
    var n, d, r := c.nodes[p], Step(c, e), e.packet.vote;
    var voters := n.role.votes + {r.sourcePeerId};
    VoteArrives(c, n, r);
    assert n.peers == c.nodes.Keys - {p};
    assert |c.nodes.Keys| == |n.peers| + 1;
    assert Granted(c, r.sourcePeerId, term, p);
    assert CandidateOk(c, n);
    forall q | q in voters
      ensures Backs(d, q, term, p)
    {
      assert Backs(c, q, term, p);
    }
    assert IsMajorityFor(d, voters, p, term);
  }

  lemma StepLeaders(c: Cluster, e: Event)
    requires VotingInv(c)
    ensures LeadersOk(Step(c, e))
  {
    StepMembership(c, e);
    var d := Step(c, e);
    forall p, term | Leads(d, p, term)
      ensures Elected(d, p, term)
    {
      if Leads(c, p, term) {
        ElectedMonotone(c, d, p, term);
      } else {
        WinnerElected(c, e, p, term);
      }
    }
  }

  lemma StepKeepsVoting(c: Cluster, e: Event)
    requires VotingInv(c) && KeepsFaith(c, Step(c, e))
    ensures VotingInv(Step(c, e))
  {
    StepMembership(c, e);
    StepRequests(c, e);
    StepCandidates(c, e);
    StepGrants(c, e);
    StepStanding(c, e);
    StepOneVote(c, e);
    StepLeaders(c, e);
  }

  lemma {:induction false} RunKeepsVoting(tr: seq<Cluster>, es: seq<Event>, k: nat)
    requires IsRun(tr, es) && Fresh(tr[0]) && Faithful(tr) && k < |tr|
    ensures VotingInv(tr[k])
  {
    if k != 0 {
      RunKeepsVoting(tr, es, k - 1);
      assert tr[k - 1 + 1] == Step(tr[k - 1], es[k - 1]) && KeepsFaith(tr[k - 1], tr[k - 1 + 1]);
      StepKeepsVoting(tr[k - 1], es[k - 1]);
    }
  }

  // ---------- election safety ----------

  lemma MajoritiesMeet(a: set<PeerId>, b: set<PeerId>, all: set<PeerId>) returns (x: PeerId)
    requires a <= all && b <= all && |all| < |a| * 2 && |all| < |b| * 2
    ensures x in a && x in b
  {
    if a * b == {} {
      assert |a + b| == |a| + |b|;
      SubsetSize(a + b, all);
      assert false;
    }
    x := Pick(a * b);
  }

  lemma ElectedOnce(c: Cluster, p: PeerId, p': PeerId, term: int)
    requires VotingInv(c) && Elected(c, p, term) && Elected(c, p', term)
    ensures p == p'
  {
    var voters :| IsMajorityFor(c, voters, p, term);
    var voters' :| IsMajorityFor(c, voters', p', term);
    var q := MajoritiesMeet(voters, voters', c.nodes.Keys);
    assert Backs(c, q, term, p) && Backs(c, q, term, p');
  }

  /** Election safety: in every faithful run of a fixed cluster that starts fresh, whatever the
      network does, no two peers are ever leader of the same term, at the same time or not. */
  lemma AtMostOneLeaderPerTerm(tr: seq<Cluster>, es: seq<Event>, i: nat, j: nat, p: PeerId, p': PeerId, term: int)
    requires IsRun(tr, es) && Fresh(tr[0]) && Faithful(tr) && i < |tr| && j < |tr|
    requires Leads(tr[i], p, term) && Leads(tr[j], p', term)
    ensures p == p'
  {
    var k := if i < j then j else i;
    RunMonotone(tr, es, i, k);
    RunMonotone(tr, es, j, k);
    RunKeepsVoting(tr, es, i);
    RunKeepsVoting(tr, es, j);
    RunKeepsVoting(tr, es, k);
    ElectedMonotone(tr[i], tr[k], p, term);
    ElectedMonotone(tr[j], tr[k], p', term);
    ElectedOnce(tr[k], p, p', term);
  }

  // ---------- a winner covers its voters ----------

  /** A request never claims more than its candidate still holds. */
  ghost predicate ClaimsOk(c: Cluster) {
    forall r :: Vote(r) in c.net ==>
      r.candidateId in c.nodes && r.lastLogIndex <= c.nodes[r.candidateId].log.nextIndex - 1
  }

  lemma StepClaims(c: Cluster, e: Event)
    requires FixedMembership(c) && LogsWellFormed(c) && ClaimsOk(c)
    ensures ClaimsOk(Step(c, e))
  {
    StepLogs(c, e);
    StepMembership(c, e);
    forall r | Vote(r) in Step(c, e).net
      ensures r.candidateId in Step(c, e).nodes
      ensures r.lastLogIndex <= Step(c, e).nodes[r.candidateId].log.nextIndex - 1
    {
      if Vote(r) !in c.net {
        NewRequest(c, e, r);
      }
    }
  }

  lemma {:induction false} RunKeepsClaims(tr: seq<Cluster>, es: seq<Event>, k: nat)
    requires IsRun(tr, es) && FixedMembership(tr[0]) && LogsWellFormed(tr[0]) && ClaimsOk(tr[0]) && k < |tr|
    ensures ClaimsOk(tr[k])
  {
    if k != 0 {
      RunKeepsClaims(tr, es, k - 1);
      RunLogs(tr, es, k - 1, k - 1);
      RunMonotone(tr, es, k - 1, k - 1);
      StepClaims(tr[k - 1], es[k - 1]);
    }
  }

  /** At step `i` follower `q` votes for `p` in `term`. */
  ghost predicate VotesAt(c: Cluster, e: Event, q: PeerId, p: PeerId, term: int) {
    && Enabled(c, e) && e.Deliver? && e.packet.Vote? && Actor(e) == q && c.nodes[q].role.Follower?
    && e.packet.request.term == term && e.packet.request.candidateId == p
    && Grants(c.nodes[q], e.packet.request)
  }

  /** From its vote on, the voter's commit index of that moment (if above 0) stays within the log of
      the candidate it voted for: so it does when that candidate leads. */
  lemma WinnerCoversVoters(tr: seq<Cluster>, es: seq<Event>, i: nat, j: nat, q: PeerId, p: PeerId, term: int)
    requires IsRun(tr, es) && FixedMembership(tr[0]) && LogsWellFormed(tr[0]) && ClaimsOk(tr[0])
    requires i < |es| && i <= j < |tr| && VotesAt(tr[i], es[i], q, p, term)
    requires 0 < tr[i].nodes[q].log.commitIndex
    ensures p in tr[j].nodes && tr[i].nodes[q].log.commitIndex <= tr[j].nodes[p].log.nextIndex - 1
  {
    RunKeepsClaims(tr, es, i);
    RunLogs(tr, es, i, j);
  }

  /** If both logs hold parts of one sequence and the winner's has no hole, the winner holds every
      entry the voter had committed when it voted. */
  lemma WinnerHoldsCommitted(
      tr: seq<Cluster>, es: seq<Event>, i: nat, j: nat, q: PeerId, p: PeerId, term: int, all: seq<Message>, k: nat)
    requires IsRun(tr, es) && FixedMembership(tr[0]) && LogsWellFormed(tr[0]) && ClaimsOk(tr[0])
    requires i < |es| && i <= j < |tr| && VotesAt(tr[i], es[i], q, p, term)
    requires p in tr[j].nodes && PartOf(tr[i].nodes[q].log, all) && PartOf(tr[j].nodes[p].log, all)
    requires forall x :: 0 <= x < tr[j].nodes[p].log.nextIndex ==> x in tr[j].nodes[p].log.entries
    requires 0 < tr[i].nodes[q].log.commitIndex && k <= tr[i].nodes[q].log.commitIndex
    requires k in tr[i].nodes[q].log.entries
    ensures k in tr[j].nodes[p].log.entries
    ensures tr[j].nodes[p].log.entries[k].entry == tr[i].nodes[q].log.entries[k].entry
  {
    WinnerCoversVoters(tr, es, i, j, q, p, term);
  }

  ghost predicate PartOf(s: LogState, all: seq<Message>) {
    forall k :: k in s.entries ==> 0 <= k < |all| && s.entries[k].entry == all[k]
  }
}
