/**
 One leader's term, expiry included: whatever the network does, all peers hold the same message at
 every index, through requests that expiry shortened and through followers that dropped their log.
 */
module OneTermAgreement {
  import opened Messages
  import opened RaftLogs
  import opened RaftNode
  import opened Cluster
  import opened Agreement
  import opened LateArrivals
  import opened StateMachineSafety

  /** Whatever any term's history holds at an index, the history of `term` holds there too. */
  ghost predicate Consistent(hist: History, term: int) {
    forall t, k, m :: Has(hist, t, k, m) ==> Has(hist, term, k, m)
  }

  /** What may be stored and in flight when the term starts: everything agrees with one history, and the
      leader's log has no stray entry.  The theorems ask this of what is live then (`Live`). */
  ghost predicate Begins(c: Cluster, hist: History, l: PeerId, term: int) {
    Inv(c, hist) && OneTerm(c, l, term) && NoStragglers(c.nodes[l].log) && Consistent(hist, term)
  }

  // ---------- one step ----------

  /** A leader only appends, commits and expires, so its log stays free of stray entries. */
  lemma LeaderStaysTidy(c: Cluster, e: Event, l: PeerId, term: int)
    requires Leads(c, l, term) && Leads(Step(c, e), l, term)
    requires WellFormed(c.nodes[l].log) && NoStragglers(c.nodes[l].log)
    ensures NoStragglers(Step(c, e).nodes[l].log)
  {
    if Enabled(c, e) && Actor(e) == l {
      var n := c.nodes[l];
      match e
      case Deliver(packet, now) =>
        if packet.AppendReply? {
          ReplyKeepsTidy(n, packet.response, now);
        }
      case Propose(_, m, now) => SubmitKeeps(n.log, n.currentTerm, m, now);
      case _ =>
    }
  }

  lemma ReplyKeepsTidy(n: Node, r: AppendResponse, now: int)
    requires n.role.Leader? && WellFormed(n.log) && NoStragglers(n.log)
    ensures NoStragglers(LeaderOnReply(n, r, now).log)
  {
    var m := RecordReply(n, r);
    CommitKeeps(m.log, BestCommit(m, Min(m.log.nextIndex, r.peerNextIndex)), m.config.expirationTimeInMs, now);
  }

  lemma ProposalConsistent(c: Cluster, e: Event, hist: History, hist': History, term: int)
    requires Consistent(hist, term) && Grows(hist, hist') && hist'.messages.Keys == hist.messages.Keys
    requires forall t :: t in hist.messages && t != term ==> hist'.messages[t] == hist.messages[t]
    ensures Consistent(hist', term)
  {
    forall t, k, m | Has(hist', t, k, m)
      ensures Has(hist', term, k, m)
    {
      if t != term {
        assert Has(hist, t, k, m);
      }
    }
  }

  lemma StepInTerm(c: Cluster, e: Event, hist: History, l: PeerId, term: int) returns (hist': History)
    requires Begins(c, hist, l, term) && OneTerm(Step(c, e), l, term)
    ensures Begins(Step(c, e), hist', l, term) && Grows(hist, hist')
  {
    assert NodeOk(c.nodes[l], hist);
    LeaderStaysTidy(c, e, l, term);
    hist' := hist;
    hide EffectOf, NodeOk, LeaderOk, ChunkOk, RequestOk, Has;
    if Enabled(c, e) {
      if e.Heartbeat? {
        NoStragglersAligned(c.nodes[l].log, NextIndex(c.nodes[l], e.to));
        hist' := HeartbeatStep(c, e, hist);
        SameMessages(hist, hist', term);
      } else if e.Propose? && c.nodes[e.peer].role.Leader? {
        hist' := ProposeStep(c, e, hist);
        ProposalConsistent(c, e, hist, hist', term);
      } else if e.Propose? {
        IdleProposal(c, e, hist);
      } else {
        assert Step(c, e).nodes[Actor(e)] == EffectOf(c, e).node;
        QuietStep(c, e, hist);
        QuietSends(c, e);
        QuietLeaders(c, hist);
        AssembleInv(c, e, hist, hist);
      }
    }
  }

  lemma SameMessages(hist: History, hist': History, term: int)
    requires Consistent(hist, term) && hist'.messages == hist.messages
    ensures Consistent(hist', term)
  {
    forall t, k, m | Has(hist', t, k, m)
      ensures Has(hist', term, k, m)
    {
      assert Has(hist, t, k, m);
    }
  }

  // ---------- runs ----------

  lemma {:induction false} RunInTerm(tr: seq<Cluster>, es: seq<Event>, hist0: History, l: PeerId, term: int, j: nat)
    returns (hist: History)
    requires IsRun(tr, es) && Begins(tr[0], hist0, l, term) && AlwaysOneTerm(tr, l, term) && j < |tr|
    ensures Begins(tr[j], hist, l, term)
  {
    hide Begins, Step, OneTerm;
    if j == 0 {
      hist := hist0;
    } else {
      var before := RunInTerm(tr, es, hist0, l, term, j - 1);
      assert tr[j] == Step(tr[j - 1], es[j - 1]) by { assert tr[j - 1 + 1] == Step(tr[j - 1], es[j - 1]); }
      hist := StepInTerm(tr[j - 1], es[j - 1], before, l, term);
    }
  }

  lemma OneHistoryAgrees(c: Cluster, hist: History, l: PeerId, term: int, p: PeerId, q: PeerId, k: int)
    requires Begins(c, hist, l, term) && p in c.nodes && q in c.nodes
    requires k in c.nodes[p].log.entries && k in c.nodes[q].log.entries
    ensures c.nodes[p].log.entries[k].entry == c.nodes[q].log.entries[k].entry
  {
    var a, b := c.nodes[p].log.entries[k], c.nodes[q].log.entries[k];
    assert NodeOk(c.nodes[p], hist) && NodeOk(c.nodes[q], hist);
    assert Has(hist, a.term, k, a.entry) && Has(hist, b.term, k, b.entry);
    assert Has(hist, term, k, a.entry) && Has(hist, term, k, b.entry);
  }

  /** One-term agreement: for as long as the term lasts, any two peers hold the same message at every index
      both store, whatever their stamps, under loss, duplication, delay and reordering, expiry included. */
  lemma PeersAgreeInOneTerm(
      tr: seq<Cluster>, es: seq<Event>, hist0: History, l: PeerId, term: int, j: nat, p: PeerId, q: PeerId)
    requires IsRun(tr, es) && AlwaysOneTerm(tr, l, term) && j < |tr|
    requires Begins(Live(tr[0], l, term), hist0, l, term)
    requires p in tr[j].nodes && q in tr[j].nodes
    ensures forall k :: k in tr[j].nodes[p].log.entries && k in tr[j].nodes[q].log.entries ==>
              tr[j].nodes[p].log.entries[k].entry == tr[j].nodes[q].log.entries[k].entry
  {
    LiveShadows(tr[0], l, term);
    ShadowFacts(tr[0], Live(tr[0], l, term), l, term);
    var live := LiveRun(tr, es, l, term);
    var hist := RunInTerm(live, es, hist0, l, term, j);
    assert SameLogs(tr[j], live[j]);
    forall k | k in tr[j].nodes[p].log.entries && k in tr[j].nodes[q].log.entries
      ensures tr[j].nodes[p].log.entries[k].entry == tr[j].nodes[q].log.entries[k].entry
    {
      OneHistoryAgrees(live[j], hist, l, term, p, q, k);
    }
  }

  // ---------- where a term begins so ----------

  /** Every log holds messages of the leader's log. */
  ghost predicate PartsOfLeader(c: Cluster, l: PeerId)
    requires l in c.nodes
  {
    forall p :: p in c.nodes ==> WellFormed(c.nodes[p].log) && Follows(c.nodes[p].log, c.nodes[l].log)
  }

  function Stamps(c: Cluster): set<int> {
    set p, k | p in c.nodes && k in c.nodes[p].log.entries :: c.nodes[p].log.entries[k].term
  }

  /** The history in which every term so far held what the leader holds now. */
  ghost function LeaderHistory(c: Cluster, l: PeerId, term: int): History
    requires l in c.nodes
  {
    var held := map k | k in c.nodes[l].log.entries :: c.nodes[l].log.entries[k].entry;
    History(map t | t in Stamps(c) + {term} :: held, map[])
  }

  lemma HistoryHas(c: Cluster, l: PeerId, term: int, p: PeerId, k: int)
    requires l in c.nodes && p in c.nodes && Follows(c.nodes[p].log, c.nodes[l].log) && k in c.nodes[p].log.entries
    ensures var e := c.nodes[p].log.entries[k];
      Has(LeaderHistory(c, l, term), e.term, k, e.entry) && Has(LeaderHistory(c, l, term), term, k, e.entry)
  {
    assert c.nodes[p].log.entries[k].term in Stamps(c);
  }

  /** So a term begins when the followers' logs are parts of the leader's and every chunk of a request for
      entries is one its receiver refuses. */
  lemma PartsBegin(c: Cluster, l: PeerId, term: int) returns (hist: History)
    requires FixedMembership(c) && OneTerm(c, l, term) && PartsOfLeader(c, l) && NoStragglers(c.nodes[l].log)
    requires NoLiveRequest(c, l, term)
    ensures Begins(Live(c, l, term), hist, l, term)
  {
    var d := Live(c, l, term);
    LiveShadows(c, l, term);
    ShadowFacts(c, d, l, term);
    NothingPending(c, l, term);
    hide LeaderHistory, NodeOk, Consistent, NoStragglers, RequestsKnown, ChunksKnown, FixedMembership, Live, OneTerm;
    assert PartsOfLeader(d, l);
    hist := LeaderHistory(d, l, term);
    LeaderHistoryConsistent(d, l, term);
    NothingInFlight(d, l, hist);
    forall p | p in d.nodes
      ensures NodeOk(d.nodes[p], hist)
    {
      PartOk(d, l, term, p);
    }
  }

  lemma NothingInFlight(c: Cluster, l: PeerId, hist: History)
    requires hist.requests == map[] && forall x :: Append(x) in c.net ==> IsKeepAlive(x)
    ensures RequestsKnown(hist, c.nextId) && ChunksKnown(c, hist)
  {
  }

  lemma LeaderHistoryConsistent(c: Cluster, l: PeerId, term: int)
    requires l in c.nodes
    ensures Consistent(LeaderHistory(c, l, term), term) && LeaderHistory(c, l, term).requests == map[]
  {
    hide Stamps;
  }

  lemma PartOk(c: Cluster, l: PeerId, term: int, p: PeerId)
    requires FixedMembership(c) && OneTerm(c, l, term) && PartsOfLeader(c, l) && p in c.nodes
    requires c.nodes[p].role.Follower? ==> c.nodes[p].role.pending == map[]
    ensures NodeOk(c.nodes[p], LeaderHistory(c, l, term))
  {
    var hist, n := LeaderHistory(c, l, term), c.nodes[p];
    assert WellFormed(n.log) && Follows(n.log, c.nodes[l].log);
    forall k | k in n.log.entries
      ensures Has(hist, n.log.entries[k].term, k, n.log.entries[k].entry) && Has(hist, term, k, n.log.entries[k].entry)
    {
      HistoryHas(c, l, term, p, k);
    }
    LeaderPartOk(c, l, term);
    hide LeaderHistory, Has, FixedMembership, PartsOfLeader, WellFormed, Follows;
    assert PendingOk(n.role, hist) by { assert n.role.Follower? ==> n.role.pending == map[]; }
    assert StampedOk(n.log, hist);
  }

  lemma LeaderPartOk(c: Cluster, l: PeerId, term: int)
    requires OneTerm(c, l, term) && PartsOfLeader(c, l)
    ensures term in LeaderHistory(c, l, term).messages
    ensures forall k :: k in LeaderHistory(c, l, term).messages[term] ==> k < c.nodes[l].log.nextIndex
  {
    hide Stamps;
    assert WellFormed(c.nodes[l].log);
  }

  /** Until the first leader all logs of a new cluster are empty; then its term begins as asked for. */
  lemma {:induction false} UnledStart(tr: seq<Cluster>, es: seq<Event>, i: nat)
    requires IsRun(tr, es) && Fresh(tr[0]) && i < |tr|
    requires forall x, p :: 0 <= x <= i && p in tr[x].nodes ==> !tr[x].nodes[p].role.Leader?
    ensures Idle(tr[i])
  {
    if i != 0 {
      UnledStart(tr, es, i - 1);
      IdleStep(tr[i - 1], es[i - 1]);
    }
  }

  lemma FirstTermBegins(tr: seq<Cluster>, es: seq<Event>, i: nat, l: PeerId) returns (hist: History)
    requires IsRun(tr, es) && Fresh(tr[0]) && 0 < i < |tr|
    requires forall x, p :: 0 <= x < i && p in tr[x].nodes ==> !tr[x].nodes[p].role.Leader?
    requires l in tr[i].nodes && tr[i].nodes[l].role.Leader?
    ensures var term := tr[i].nodes[l].currentTerm; Begins(Live(tr[i], l, term), hist, l, term)
  {
    hide Begins, Live, Idle, Step, EMPTY_LOG;
    UnledStart(tr, es, i - 1);
    RunMonotone(tr, es, 0, i);
    assert tr[i - 1 + 1] == Step(tr[i - 1], es[i - 1]);
    hide IsRun, Fresh;
    hist := FirstLeaderBegins(tr[i - 1], es[i - 1], l);
  }

  lemma FirstLeaderBegins(c: Cluster, e: Event, l: PeerId) returns (hist: History)
    requires Idle(c) && FixedMembership(Step(c, e)) && l in Step(c, e).nodes && Step(c, e).nodes[l].role.Leader?
    ensures var d := Step(c, e);
      var term := d.nodes[l].currentTerm; Begins(Live(d, l, term), hist, l, term)
  {
    hide Step, Idle, Live, Begins, PartsOfLeader, FixedMembership, NoStragglers, OneTerm, NoLiveRequest;
    var d := Step(c, e);
    IdleStep(c, e);
    FirstLeaderAlone(c, e, l);
    EmptyLogsAreParts(d, l);
    hist := PartsBegin(d, l, d.nodes[l].currentTerm);
  }

  lemma FirstLeaderAlone(c: Cluster, e: Event, l: PeerId)
    requires Idle(c) && l in Step(c, e).nodes && Step(c, e).nodes[l].role.Leader?
    ensures OneTerm(Step(c, e), l, Step(c, e).nodes[l].currentTerm)
  {
    IdleStep(c, e);
    assert c.nodes[l].currentTerm == 0 && !c.nodes[l].role.Leader?;
    NewLeaderComesFromTermBefore(c, e, l, Step(c, e).nodes[l].currentTerm);
    hide Step;
  }

  lemma EmptyLogsAreParts(d: Cluster, l: PeerId)
    requires l in d.nodes && forall x :: Append(x) !in d.net
    requires forall p :: p in d.nodes ==>
      d.nodes[p].log == EMPTY_LOG && (d.nodes[p].role.Follower? ==> d.nodes[p].role.pending == map[])
    ensures PartsOfLeader(d, l) && NoStragglers(d.nodes[l].log) && NoLiveRequest(d, l, d.nodes[l].currentTerm)
  {
  }

  /** A new cluster, with any expiry: as long as its first leader's term lasts, no two peers hold different
      messages at one index. */
  lemma FirstTermAgrees(
      tr: seq<Cluster>, es: seq<Event>, i: nat, j: nat, l: PeerId, p: PeerId, q: PeerId, k: int)
    requires IsRun(tr, es) && Fresh(tr[0]) && 0 < i <= j < |tr|
    requires forall x, r :: 0 <= x < i && r in tr[x].nodes ==> !tr[x].nodes[r].role.Leader?
    requires l in tr[i].nodes && tr[i].nodes[l].role.Leader?
    requires forall x :: i <= x <= j ==> OneTerm(tr[x], l, tr[i].nodes[l].currentTerm)
    requires p in tr[j].nodes && q in tr[j].nodes
    requires k in tr[j].nodes[p].log.entries && k in tr[j].nodes[q].log.entries
    ensures tr[j].nodes[p].log.entries[k].entry == tr[j].nodes[q].log.entries[k].entry
  {
    hide Begins, OneTerm, Step, Fresh, Live, AlwaysOneTerm;
    var term := tr[i].nodes[l].currentTerm;
    var hist := FirstTermBegins(tr, es, i, l);
    SubRun(tr, es, i, j, l, term);
    var part, events := tr[i..j + 1], es[i..j];
    assert part[0] == tr[i] && part[j - i] == tr[j];
    PeersAgreeInOneTerm(part, events, hist, l, term, j - i, p, q);
  }
}
