/** How two leaders of one term can arise, and how the code resolves them. */
module Leadership {
  import opened Messages
  import opened RaftNode
  import opened Cluster
  import opened Scenarios

  // ---------- two leaders of one term ----------

  /** Without the condition election safety fails: `C` votes for `A`, forgets it on a timeout and
      votes for `B`, and both lead term 1. */
  lemma TwoLeadersInOneTerm() returns (tr: seq<Cluster>, es: seq<Event>)
    ensures IsRun(tr, es) && Fresh(tr[0])
    ensures Leads(tr[|es|], A, 1) && Leads(tr[|es|], B, 1)
  {
    var setup := Setup(true, 0, false, None);
    NewcomersAreFresh(setup);
    var c := Begin(setup);
    assert CanStand(Newcomer(A, setup)) && CanStand(Newcomer(B, setup));
    c := Campaigns(setup, c, A);
    c := Ticks(setup, c, C, true);
    assert c.nodes[C] == Newcomer(C, setup);
    c := Campaigns(setup, c, B);
    tr, es :| IsRunTo(setup, tr, es, c);
  }

  // ---------- one leader remains ----------

  /** A leader keeps leading on a chunk of its own term exactly when the sender does not have the
      greater id (or is itself, or is not known as a peer). */
  lemma SameTermRival(c: Cluster, e: Event, p: PeerId, term: int)
    requires FixedMembership(c) && Leads(c, p, term) && Enabled(c, e) && Actor(e) == p
    requires e.Deliver? && e.packet.Append? && e.packet.chunk.term == term
    ensures Leads(Step(c, e), p, term) <==>
            !(e.packet.chunk.leaderId in c.nodes && p.rank < e.packet.chunk.leaderId.rank)
  {
  }

  /** For every term of the chunk: a leader keeps leading exactly unless another peer of the cluster sent it in a
      newer term, whatever its id, or in the same term with a greater id.  It then follows nobody yet, and
      nothing else about it changes. */
  lemma LeaderYieldsExactly(c: Cluster, e: Event, p: PeerId, term: int)
    requires FixedMembership(c) && Leads(c, p, term) && Enabled(c, e) && Actor(e) == p
    requires e.Deliver? && e.packet.Append?
    ensures var x, n, m := e.packet.chunk, c.nodes[p], Step(c, e).nodes[p];
      && (Leads(Step(c, e), p, term) <==>
            !(x.leaderId in c.nodes && x.leaderId != p
              && (term < x.term || (term == x.term && p.rank < x.leaderId.rank))))
      && m == (if Leads(Step(c, e), p, term) then n else n.(leaderId := None, role := Follower(map[])))
      && Step(c, e).net == c.net
  {
  }

  /** A leader without any other peer gives up at its next tick; with others no tick ends its leadership. */
  lemma LonelyLeaderGivesUp(c: Cluster, p: PeerId, term: int, timedOut: bool)
    requires FixedMembership(c) && Leads(c, p, term)
    ensures var n, m := c.nodes[p], Step(c, Tick(p, timedOut)).nodes[p];
      m == if c.nodes.Keys == {p} then n.(leaderId := None, role := Follower(map[])) else n
  {
    assert c.nodes.Keys - {p} == {} <==> c.nodes.Keys == {p};
  }

  lemma NotLeadingStays(c: Cluster, e: Event, p: PeerId, term: int)
    requires p in c.nodes && term <= c.nodes[p].currentTerm && !Leads(c, p, term)
    ensures !Leads(Step(c, e), p, term)
  {
    if Leads(Step(c, e), p, term) {
      NewLeaderComesFromTermBefore(c, e, p, term);
      assert false;
    }
  }

  /** Who stepped down never leads that term again. */
  lemma {:induction false} NeverLeadsAgain(
      tr: seq<Cluster>, es: seq<Event>, i: nat, j: nat, k: nat, p: PeerId, term: int)
    requires IsRun(tr, es) && FixedMembership(tr[0]) && i <= j <= k < |tr|
    requires Leads(tr[i], p, term) && !Leads(tr[j], p, term)
    ensures !Leads(tr[k], p, term)
    decreases k
  {
    if j < k {
      RunMonotone(tr, es, i, k - 1);
      NeverLeadsAgain(tr, es, i, j, k - 1, p, term);
      NotLeadingStays(tr[k - 1], es[k - 1], p, term);
    }
  }

  /** Event `e` hands peer `s` a chunk that leader `g` of `term` sent. */
  predicate HearsFrom(c: Cluster, e: Event, s: PeerId, g: PeerId, term: int) {
    && Enabled(c, e) && e.Deliver? && e.packet.Append? && Actor(e) == s
    && e.packet.chunk.leaderId == g && e.packet.chunk.term == term
  }

  /** Once a chunk of a leader with a greater id has reached it, a leader no longer leads that term. */
  lemma LowerLeaderGivesUp(tr: seq<Cluster>, es: seq<Event>, i: nat, h: nat, j: nat, s: PeerId, g: PeerId, term: int)
    requires IsRun(tr, es) && FixedMembership(tr[0]) && i <= h < j < |tr|
    requires Leads(tr[i], s, term) && g in tr[i].nodes && s.rank < g.rank
    requires HearsFrom(tr[h], es[h], s, g, term)
    ensures !Leads(tr[j], s, term)
  {
    RunMonotone(tr, es, i, h);
    RunMonotone(tr, es, i, j);
    if Leads(tr[h], s, term) {
      SameTermRival(tr[h], es[h], s, term);
      NeverLeadsAgain(tr, es, i, h + 1, j, s, term);
    } else {
      NeverLeadsAgain(tr, es, i, h, j, s, term);
    }
  }

  /** Nothing that reaches `g` carries a newer term, or its own term from a greater id. */
  predicate Unchallenged(c: Cluster, e: Event, g: PeerId, term: int) {
    Enabled(c, e) && e.Deliver? && Actor(e) == g ==>
      match e.packet
      case Append(x) => x.term < term || (x.term == term && x.leaderId.rank <= g.rank)
      case AppendReply(x) => x.term <= term
      case _ => true
  }

  /** One delivery at an unchallenged leader. */
  lemma ReceivingKeepsLeading(n: Node, packet: Packet, now: int, term: int)
    requires n.role.Leader? && n.currentTerm == term
    requires match packet
      case Append(x) => x.term < term || (x.term == term && x.leaderId.rank <= n.id.rank)
      case AppendReply(x) => x.term <= term
      case _ => true
    ensures Receive(n, packet, now).node.role.Leader? && Receive(n, packet, now).node.currentTerm == term
  {
    if packet.AppendReply? {
      LeaderReplyFacts(n, packet.response, now);
    }
    hide LeaderOnReply, FollowerOnChunk;
  }

  lemma StepKeepsLeading(c: Cluster, e: Event, g: PeerId, term: int)
    requires FixedMembership(c) && Leads(c, g, term) && 2 <= |c.nodes.Keys| && Unchallenged(c, e, g, term)
    ensures Leads(Step(c, e), g, term)
  {
    if Enabled(c, e) && Actor(e) == g {
      if e.Deliver? {
        ReceivingKeepsLeading(c.nodes[g], e.packet, e.now, term);
      } else {
        assert |c.nodes.Keys - {g}| == |c.nodes.Keys| - 1;
      }
      hide Receive;
    }
  }

  lemma {:induction false} StaysLeader(tr: seq<Cluster>, es: seq<Event>, i: nat, j: nat, g: PeerId, term: int)
    requires IsRun(tr, es) && FixedMembership(tr[0]) && i <= j < |tr|
    requires Leads(tr[i], g, term) && 2 <= |tr[0].nodes.Keys|
    requires forall h :: i <= h < j ==> Unchallenged(tr[h], es[h], g, term)
    ensures Leads(tr[j], g, term)
    decreases j
  {
    hide Step, FixedMembership, Unchallenged, Leads;
    if i < j {
      StaysLeader(tr, es, i, j - 1, g, term);
      RunMonotone(tr, es, 0, j - 1);
      assert tr[j - 1 + 1] == Step(tr[j - 1], es[j - 1]);
      StepKeepsLeading(tr[j - 1], es[j - 1], g, term);
    }
  }

  /** Among any leaders of one term the one with the greatest id is the only one left once its chunks
      have reached all the others, as long as nothing newer reaches it. */
  lemma ExactlyOneRemains(tr: seq<Cluster>, es: seq<Event>, i: nat, j: nat, rivals: set<PeerId>, g: PeerId, term: int)
    requires IsRun(tr, es) && FixedMembership(tr[0]) && i <= j < |tr|
    requires g in rivals && 2 <= |rivals|
    requires forall s :: s in rivals ==> Leads(tr[i], s, term) && (s == g || s.rank < g.rank)
    requires forall s :: s in rivals && s != g ==> exists h :: i <= h < j && HearsFrom(tr[h], es[h], s, g, term)
    requires forall h :: i <= h < j ==> Unchallenged(tr[h], es[h], g, term)
    ensures forall s :: s in rivals ==> (Leads(tr[j], s, term) <==> s == g)
  {
    RunMonotone(tr, es, 0, i);
    SubsetSize(rivals, tr[0].nodes.Keys);
    StaysLeader(tr, es, i, j, g, term);
    forall s | s in rivals && s != g
      ensures !Leads(tr[j], s, term)
    {
      var h :| i <= h < j && HearsFrom(tr[h], es[h], s, g, term);
      LowerLeaderGivesUp(tr, es, i, h, j, s, g, term);
    }
  }
}
