/**
 What holds over any number of terms, without expiry: which commits rest on a majority, and what a winner
 holds of what its voters had committed.
 */
module AcrossTerms {
  import opened Messages
  import opened RaftLogs
  import opened RaftNode
  import opened Cluster
  import opened Elections
  import opened Agreement
  import opened Replication
  import opened StateMachineSafety

  /** Up to index `i` every entry of `s` carries the term of the leader, or the stamp of its entry there. */
  ghost predicate StampedAlike(s: LogState, leader: LogState, term: int, i: int) {
    forall k :: 0 <= k <= i && k in s.entries && k in leader.entries ==>
      s.entries[k].term == term || s.entries[k].term == leader.entries[k].term
  }

  ghost predicate HoldsUpTo(s: LogState, leader: LogState, i: int) {
    forall k :: 0 <= k <= i ==>
      k in s.entries && k in leader.entries && s.entries[k].entry == leader.entries[k].entry
  }

  /** An entry stamped with a leader's term is the leader's, at any peer. */
  lemma StampedLikeLeader(c: Cluster, hist: History, l: PeerId, q: PeerId, k: int)
    requires Inv(c, hist) && l in c.nodes && c.nodes[l].role.Leader? && q in c.nodes
    requires k in c.nodes[l].log.entries && k in c.nodes[q].log.entries
    requires var t := c.nodes[q].log.entries[k].term;
      t == c.nodes[l].currentTerm || t == c.nodes[l].log.entries[k].term
    ensures c.nodes[q].log.entries[k].entry == c.nodes[l].log.entries[k].entry
  {
    var a, b := c.nodes[l].log.entries[k], c.nodes[q].log.entries[k];
    assert NodeOk(c.nodes[l], hist) && NodeOk(c.nodes[q], hist);
    assert Has(hist, a.term, k, a.entry) && Has(hist, c.nodes[l].currentTerm, k, a.entry);
    assert Has(hist, b.term, k, b.entry);
  }

  lemma HoldsWhatIsStampedAlike(c: Cluster, hist: History, l: PeerId, q: PeerId, i: int)
    requires Inv(c, hist) && l in c.nodes && c.nodes[l].role.Leader? && q in c.nodes
    requires Complete(c.nodes[l].log) && Complete(c.nodes[q].log)
    requires i < c.nodes[l].log.nextIndex && i < c.nodes[q].log.nextIndex
    requires StampedAlike(c.nodes[q].log, c.nodes[l].log, c.nodes[l].currentTerm, i)
    ensures HoldsUpTo(c.nodes[q].log, c.nodes[l].log, i)
  {
    hide Inv;
    forall k | 0 <= k <= i
      ensures c.nodes[q].log.entries[k].entry == c.nodes[l].log.entries[k].entry
    {
      StampedLikeLeader(c, hist, l, q, k);
    }
  }

  /** The peers on record as matching index `i` after the reply, with the leader. */
  function Counted(n: Node, r: AppendResponse, i: int): set<PeerId>
    requires n.role.Leader?
  {
    Matching(RecordReply(n, r), i) + {n.id}
  }

  /** The leader's commit index moves in this step. */
  ghost predicate CommitsAt(c: Cluster, e: Event, l: PeerId) {
    && Enabled(c, e) && Actor(e) == l && c.nodes[l].role.Leader?
    && c.nodes[l].log.commitIndex < Step(c, e).nodes[l].log.commitIndex
  }

  lemma OnlyRepliesCommit(n: Node, e: Event, nextId: RequestId)
    requires n.role.Leader? && !(e.Deliver? && e.packet.AppendReply?)
    ensures e.Deliver? ==> Receive(n, e.packet, e.now).node.log == n.log
    ensures e.Tick? ==> TickNode(n, e.timedOut).node.log == n.log
    ensures e.Heartbeat? ==> LeaderSend(n, e.to, e.now, nextId).node.log == n.log
    ensures e.Propose? ==> SubmitTo(n, e.m, e.now).log.commitIndex == n.log.commitIndex
  {
    hide Collect, MessagesOf, HeaderFor, ChunksOf;
  }

  lemma CommitsOnReply(c: Cluster, e: Event, l: PeerId)
    requires CommitsAt(c, e, l)
    ensures e.Deliver? && e.packet.AppendReply?
    ensures Step(c, e).nodes[l] == LeaderOnReply(c.nodes[l], e.packet.response, e.now)
  {
    if !(e.Deliver? && e.packet.AppendReply?) {
      OnlyRepliesCommit(c.nodes[l], e, c.nextId);
    }
    hide TickNode, LeaderSend, SubmitTo, LeaderOnReply, LeaderOnChunk;
  }

  lemma MovedByReply(n: Node, r: AppendResponse, now: int, hist: History)
    requires n.role.Leader? && NodeSound(n, hist) && n.log.commitIndex < LeaderOnReply(n, r, now).log.commitIndex
    ensures var m := LeaderOnReply(n, r, now);
      && m.role.Leader? && m.currentTerm == n.currentTerm && m.log.entries == n.log.entries
      && 0 <= m.log.commitIndex < n.log.nextIndex && Committable(RecordReply(n, r), m.log.commitIndex)
      && r.success && r.processed
  {
    hide NodeSound, LeaderOnReply, Committable, RecordReply, WellFormed;
    LeaderReplyFacts(n, r, now);
    UncommittedByNewer(n, r, now);
    ReplyCommits(n, r, now, hist);
  }

  lemma RecordedMatches(nodes: map<PeerId, Node>, n: Node, r: AppendResponse)
    requires n.role.Leader? && MatchOk(nodes, n.matchIndexes) && ReplyOk(nodes, r) && r.success && r.processed
    ensures MatchOk(nodes, RecordReply(n, r).matchIndexes)
  {
  }

  lemma CommitStep(c: Cluster, e: Event, hist: History, l: PeerId)
    requires SafeInv(c, hist) && CommitsAt(c, e, l)
    ensures e.Deliver? && e.packet.AppendReply?
    ensures Leads(Step(c, e), l, c.nodes[l].currentTerm)
    ensures Step(c, e).nodes[l].log.entries == c.nodes[l].log.entries
    ensures var i, n := Step(c, e).nodes[l].log.commitIndex, c.nodes[l];
      && 0 <= i < n.log.nextIndex && Committable(RecordReply(n, e.packet.response), i)
      && MatchOk(c.nodes, RecordReply(n, e.packet.response).matchIndexes)
  {
    CommitsOnReply(c, e, l);
    var n, r := c.nodes[l], e.packet.response;
    SafeRecords(c, hist, l, r);
    hide SafeInv, EffectOf, LeaderOnReply, Committable, RecordReply, MatchOk, ReplyOk;
    MovedByReply(n, r, e.now, hist);
    RecordedMatches(c.nodes, n, r);
  }

  lemma SafeRecords(c: Cluster, hist: History, l: PeerId, r: AppendResponse)
    requires SafeInv(c, hist) && l in c.nodes && AppendReply(r) in c.net
    ensures NodeSound(c.nodes[l], hist) && MatchOk(c.nodes, c.nodes[l].matchIndexes) && ReplyOk(c.nodes, r)
  {
    hide NodeSound, NextOk, MatchOk, ReplyOk;
  }

  lemma UncommittedByNewer(n: Node, r: AppendResponse, now: int)
    requires n.role.Leader? && n.log.commitIndex < LeaderOnReply(n, r, now).log.commitIndex
    ensures r.term <= n.currentTerm
  {
    hide CommitLog, BestCommit, RecordReply;
  }

  /** Quorum commit in any term of any faithful run without expiry: whenever a leader's commit index moves, the
      entry there is of its term, and the peers it counted, itself included, are a strict majority that stores
      every index up to it.  A counted peer holds the leader's messages there if each of its entries carries the
      leader's term or the stamp the leader's entry has. */
  lemma CommitsRestOnCounted(tr: seq<Cluster>, es: seq<Event>, j: nat, l: PeerId)
    requires IsRun(tr, es) && Fresh(tr[0]) && NeverExpires(tr[0]) && Faithful(tr) && j < |es|
    requires CommitsAt(tr[j], es[j], l)
    ensures es[j].Deliver? && es[j].packet.AppendReply?
    ensures var c, s, term := tr[j + 1], tr[j + 1].nodes[l].log, tr[j].nodes[l].currentTerm;
      var counted := Counted(tr[j].nodes[l], es[j].packet.response, s.commitIndex);
      && counted <= c.nodes.Keys && |c.nodes.Keys| < |counted| * 2
      && s.commitIndex in s.entries && s.entries[s.commitIndex].term == term
      && forall q :: q in counted ==>
           && q in c.nodes && s.commitIndex < c.nodes[q].log.nextIndex && Complete(c.nodes[q].log)
           && (StampedAlike(c.nodes[q].log, s, term, s.commitIndex) ==> HoldsUpTo(c.nodes[q].log, s, s.commitIndex))
  {
    hide Step, Inv, Fresh, NeverExpires, Faithful, SafeInv, TermsLed, AllStamped, SendsWithoutHoles;
    assert tr[j + 1] == Step(tr[j], es[j]);
    var safe := RunKeepsSafe(tr, es, j);
    CommitStep(tr[j], es[j], safe, l);
    var n, r, i := tr[j].nodes[l], es[j].packet.response, tr[j + 1].nodes[l].log.commitIndex;
    SoundLonger(tr[j], es[j], safe);
    SafeMembers(tr[j], safe, l);
    var counted := MajorityCounts(tr[j].nodes, RecordReply(n, r), l, i);
    NoExpirySendsWithoutHoles(tr, es);
    FaithfulMeansOneLeader(tr, es);
    var hist := CommonHistory(tr, es, j + 1, j + 1);
    forall q | q in counted
      ensures Complete(tr[j + 1].nodes[q].log)
      ensures StampedAlike(tr[j + 1].nodes[q].log, tr[j + 1].nodes[l].log, n.currentTerm, i) ==>
                HoldsUpTo(tr[j + 1].nodes[q].log, tr[j + 1].nodes[l].log, i)
    {
      LogsStayComplete(tr, es, j + 1, q);
      LogsStayComplete(tr, es, j + 1, l);
      if StampedAlike(tr[j + 1].nodes[q].log, tr[j + 1].nodes[l].log, n.currentTerm, i) {
        HoldsWhatIsStampedAlike(tr[j + 1], hist, l, q, i);
      }
    }
  }

  lemma SafeMembers(c: Cluster, hist: History, l: PeerId)
    requires SafeInv(c, hist) && l in c.nodes
    ensures c.nodes[l].id == l && c.nodes[l].peers == c.nodes.Keys - {l}
  {
  }

  /** Faithful runs without expiry: from a vote on, the candidate's log has every index the voter had committed
      when it voted (if it had committed more than index 0), and the same message wherever the stamp is the same. */
  lemma WinnerHoldsByStamp(
      tr: seq<Cluster>, es: seq<Event>, i: nat, j: nat, q: PeerId, p: PeerId, term: int, k: int)
    requires IsRun(tr, es) && Fresh(tr[0]) && NeverExpires(tr[0]) && Faithful(tr)
    requires i < |es| && i <= j < |tr| && VotesAt(tr[i], es[i], q, p, term)
    requires 0 < tr[i].nodes[q].log.commitIndex && 0 <= k <= tr[i].nodes[q].log.commitIndex
    ensures p in tr[j].nodes && k in tr[i].nodes[q].log.entries && k in tr[j].nodes[p].log.entries
    ensures var a, b := tr[i].nodes[q].log.entries[k], tr[j].nodes[p].log.entries[k];
      a.term == b.term ==> a.entry == b.entry
  {
    WinnerCoversVoters(tr, es, i, j, q, p, term);
    LogsStayComplete(tr, es, i, q);
    LogsStayComplete(tr, es, j, p);
    hide Step, Fresh, NeverExpires, Faithful, IsRun, VotesAt;
    if tr[i].nodes[q].log.entries[k].term == tr[j].nodes[p].log.entries[k].term {
      RunsWithoutExpiryAgree(tr, es, i, j, q, p, k);
    }
  }
}
