/**
 What the term check keeps out: packets of earlier terms, and requests left half assembled, play no
 part in one leader's term.  A run goes on as if they had never been.
 */
module LateArrivals {
  import opened Messages
  import opened AppendEntriesRequests
  import opened RaftNode
  import opened Cluster

  /** `l` leads `term`, nobody else leads, and nobody is at a later term. */
  ghost predicate OneTerm(c: Cluster, l: PeerId, term: int) {
    && Leads(c, l, term)
    && forall p :: p in c.nodes ==> c.nodes[p].currentTerm <= term && (p != l ==> !c.nodes[p].role.Leader?)
  }

  ghost predicate AlwaysOneTerm(tr: seq<Cluster>, l: PeerId, term: int) {
    forall x :: 0 <= x < |tr| ==> OneTerm(tr[x], l, term)
  }

  /** The chunk is of a term before the peer's own, and before the one it stands for. */
  predicate Refuses(n: Node, x: AppendChunk) {
    x.term < n.currentTerm && (n.role.Candidate? ==> x.term < n.role.electionTerm)
  }

  /** What cannot change anything while `l` leads `term`: a chunk its receiver refuses or that goes to the
      leader itself, and a reply that is not to the leader or answers an earlier term. */
  predicate Dead(c: Cluster, packet: Packet, l: PeerId, term: int) {
    match packet
    case Append(x) => x.peerId !in c.nodes || x.peerId == l || Refuses(c.nodes[x.peerId], x)
    case AppendReply(r) => r.destinationPeerId != l || r.term < term
    case _ => false
  }

  /** Some chunk of request `id` may still reach `p`. */
  ghost predicate Awaited(net: set<Packet>, p: PeerId, id: RequestId) {
    exists x :: Append(x) in net && x.peerId == p && x.requestId == id && !IsKeepAlive(x)
  }

  /** An assembler is left over if its request was sent before and no chunk of it can come any more. */
  ghost predicate LeftOver(net: set<Packet>, nextId: RequestId, p: PeerId, id: RequestId) {
    id < nextId && !Awaited(net, p, id)
  }

  ghost function Tidied(n: Node, p: PeerId, net: set<Packet>, nextId: RequestId): Node {
    if n.role.Follower?
    then n.(role := Follower(map id | id in n.role.pending && !LeftOver(net, nextId, p, id) :: n.role.pending[id]))
    else n
  }

  /** The cluster without what is dead and left over. */
  ghost function Live(c: Cluster, l: PeerId, term: int): Cluster {
    var net := set x | x in c.net && !Dead(c, x, l, term);
    Cluster(map p | p in c.nodes :: Tidied(c.nodes[p], p, net, c.nextId), net, c.nextId)
  }

  // ---------- a cluster and what remains of it ----------

  /** `m` is `n` short of some assemblers that are left over. */
  ghost predicate Lighter(n: Node, m: Node, p: PeerId, net: set<Packet>, nextId: RequestId) {
    && m == n.(role := m.role)
    && (!n.role.Follower? ==> m == n)
    && (n.role.Follower? ==> m.role.Follower? && FewerPending(n.role.pending, m.role.pending, p, net, nextId))
  }

  ghost predicate FewerPending(
      a: map<RequestId, Assembler>, b: map<RequestId, Assembler>, p: PeerId, net: set<Packet>, nextId: RequestId) {
    && (forall id :: id in b ==> id in a && b[id] == a[id])
    && (forall id :: id in a && id !in b ==> LeftOver(net, nextId, p, id))
  }

  /** `d` is `c` short of some packets that are dead and some assemblers that are left over. */
  ghost predicate Shadows(c: Cluster, d: Cluster, l: PeerId, term: int) {
    && d.nodes.Keys == c.nodes.Keys && d.nextId == c.nextId && d.net <= c.net
    && (forall p :: p in c.nodes ==> Lighter(c.nodes[p], d.nodes[p], p, d.net, c.nextId))
    && (forall x :: x in c.net && x !in d.net ==> Dead(c, x, l, term))
  }

  lemma LiveShadows(c: Cluster, l: PeerId, term: int)
    ensures Shadows(c, Live(c, l, term), l, term)
  {
    hide Dead, LeftOver;
  }

  /** What a cluster and what remains of it have in common. */
  lemma ShadowFacts(c: Cluster, d: Cluster, l: PeerId, term: int)
    requires Shadows(c, d, l, term)
    ensures OneTerm(c, l, term) <==> OneTerm(d, l, term)
    ensures FixedMembership(c) <==> FixedMembership(d)
    ensures d.nodes.Keys == c.nodes.Keys
    ensures forall p :: p in c.nodes ==> d.nodes[p].log == c.nodes[p].log && d.nodes[p].commits == c.nodes[p].commits
  {
    hide Dead, LeftOver;
    assert forall p :: p in c.nodes ==> Lighter(c.nodes[p], d.nodes[p], p, d.net, c.nextId);
  }

  /** No request for entries can still be accepted, and whatever is pending was sent before. */
  ghost predicate NoLiveRequest(c: Cluster, l: PeerId, term: int) {
    && (forall x :: Append(x) in c.net && !Dead(c, Append(x), l, term) ==> IsKeepAlive(x))
    && (forall p, id :: p in c.nodes && c.nodes[p].role.Follower? && id in c.nodes[p].role.pending ==> id < c.nextId)
  }

  lemma NothingPending(c: Cluster, l: PeerId, term: int)
    requires NoLiveRequest(c, l, term)
    ensures var d := Live(c, l, term);
      && (forall x :: Append(x) in d.net ==> IsKeepAlive(x))
      && (forall p :: p in d.nodes && d.nodes[p].role.Follower? ==> d.nodes[p].role.pending == map[])
  {
    hide Dead;
  }

  /** If every peer is at the term and every candidate stands for a later one, all chunks of earlier terms are
      dead, so that no request for entries is live if the term's leader has sent none yet. */
  lemma SettledTermRefuses(c: Cluster, l: PeerId, term: int)
    requires forall p :: p in c.nodes ==>
      && c.nodes[p].currentTerm == term
      && (c.nodes[p].role.Candidate? ==> term < c.nodes[p].role.electionTerm)
      && (c.nodes[p].role.Follower? ==> forall id :: id in c.nodes[p].role.pending ==> id < c.nextId)
    requires forall x :: Append(x) in c.net && !IsKeepAlive(x) ==> x.term < term
    ensures NoLiveRequest(c, l, term)
  {
  }

  // ---------- what is dead stays dead and does nothing ----------

  lemma DeadIsIgnored(c: Cluster, e: Event, l: PeerId, term: int)
    requires FixedMembership(c) && OneTerm(c, l, term) && OneTerm(Step(c, e), l, term)
    requires Enabled(c, e) && e.Deliver? && Dead(c, e.packet, l, term)
    ensures EffectOf(c, e).node == c.nodes[Actor(e)]
    ensures forall x :: x in EffectOf(c, e).out ==> Dead(c, x, l, term)
  {
    assert Step(c, e).nodes[Actor(e)] == EffectOf(c, e).node;
  }

  /** A peer that becomes a candidate stands for the term after its own. */
  lemma StandsNext(n: Node, c: Cluster, e: Event)
    requires Enabled(c, e) && n == c.nodes[Actor(e)] && EffectOf(c, e).node.role.Candidate?
    ensures var m := EffectOf(c, e).node;
      if n.role.Candidate? then m.role.electionTerm == n.role.electionTerm && m.currentTerm == n.currentTerm
      else m.role.electionTerm == n.currentTerm + 1
  {
    if e.Deliver? && e.packet.Append? && n.role.Follower? {
      FollowerChunkFacts(n, e.packet.chunk, e.now);
    }
  }

  lemma DeadStaysDead(c: Cluster, e: Event, x: Packet, l: PeerId, term: int)
    requires FixedMembership(c) && Dead(c, x, l, term)
    ensures Dead(Step(c, e), x, l, term)
  {
    StepMembership(c, e);
    if Enabled(c, e) && EffectOf(c, e).node.role.Candidate? {
      StandsNext(c.nodes[Actor(e)], c, e);
    }
    hide EffectOf;
  }

  // ---------- both take the same step ----------

  lemma SameInstall(n: Node, q: map<RequestId, Assembler>, a: Assembler, c: AppendChunk, now: int)
    requires n.role.Follower?
    ensures var f, g := Install(n, a, c, now), Install(n.(role := Follower(q)), a, c, now);
      g.out == f.out && g.node == f.node.(role := Follower(q)) && f.node.role == n.role
  {
    hide Applied, GapReset;
    var start := a.leaderNextIndex - |a.entriesList|;
    var log := Applied(GapReset(n.log, start), start, a.entriesList, n.currentTerm, now);
    SameCommit(n.(log := log), q, c.leaderCommit, now);
  }

  lemma SameCommit(n: Node, q: map<RequestId, Assembler>, leaderCommit: int, now: int)
    ensures UpdateCommitIndex(n.(role := Follower(q)), leaderCommit, now) ==
            UpdateCommitIndex(n, leaderCommit, now).(role := Follower(q))
    ensures UpdateCommitIndex(n, leaderCommit, now).role == n.role
  {
    hide CommitsOf;
  }

  lemma SameEntryChunk(n: Node, m: Node, c: AppendChunk, now: int, net: set<Packet>, nextId: RequestId)
    requires n.role.Follower? && Lighter(n, m, c.peerId, net, nextId) && Append(c) in net && !IsKeepAlive(c)
    ensures var f, g := FollowerOnEntryChunk(n, c, now), FollowerOnEntryChunk(m, c, now);
      g.out == f.out && Lighter(f.node, g.node, c.peerId, net, nextId)
  {
    hide AddChunk, Throws, Install;
    var p, q, id := n.role.pending, m.role.pending, c.requestId;
    assert Awaited(net, c.peerId, id);
    assert PendingFor(n, id) == PendingFor(m, id);
    var a := AddChunk(PendingFor(n, id), c);
    SameInstall(n.(role := Follower(p - {id})), q - {id}, a, c, now);
    hide Awaited;
    assert FewerPending(p - {id}, q - {id}, c.peerId, net, nextId);
    assert FewerPending(p[id := a], q[id := a], c.peerId, net, nextId);
  }

  lemma SameChunk(n: Node, m: Node, c: AppendChunk, now: int, net: set<Packet>, nextId: RequestId)
    requires n.role.Follower? && Lighter(n, m, c.peerId, net, nextId) && Append(c) in net
    ensures var f, g := FollowerOnChunk(n, c, now), FollowerOnChunk(m, c, now);
      g.out == f.out && Lighter(f.node, g.node, c.peerId, net, nextId)
  {
    hide FollowerOnEntryChunk, UpdateCommitIndex, FewerPending;
    var k := Adopt(n, c);
    assert Adopt(m, c) == k.(role := m.role);
    if !IsKeepAlive(c) {
      SameEntryChunk(k, Adopt(m, c), c, now, net, nextId);
    } else {
      SameCommit(k, m.role.pending, c.leaderCommit, now);
    }
  }

  lemma SameEffect(c: Cluster, d: Cluster, e: Event, l: PeerId, term: int)
    requires Shadows(c, d, l, term) && Enabled(c, e) && Enabled(d, e)
    ensures EffectOf(d, e).out == EffectOf(c, e).out
    ensures Lighter(EffectOf(c, e).node, EffectOf(d, e).node, Actor(e), d.net, c.nextId)
  {
    var n, m := c.nodes[Actor(e)], d.nodes[Actor(e)];
    assert Lighter(n, m, Actor(e), d.net, c.nextId);
    hide FollowerOnChunk, FewerPending, Shadows;
    if n.role.Follower? && e.Deliver? && e.packet.Append? {
      SameChunk(n, m, e.packet.chunk, e.now, d.net, c.nextId);
    }
  }

  /** New chunks belong to the next request, so what is left over stays so. */
  lemma NoNewChunks(c: Cluster, d: Cluster, e: Event, p: PeerId, id: RequestId)
    requires d.nextId == c.nextId && LeftOver(d.net, c.nextId, p, id)
    ensures LeftOver(Step(d, e).net, Step(d, e).nextId, p, id)
  {
    var after := Step(d, e);
    if Awaited(after.net, p, id) {
      var x :| Append(x) in after.net && x.peerId == p && x.requestId == id && !IsKeepAlive(x);
      assert Append(x) !in d.net;
      assert Enabled(d, e) && Append(x) in EffectOf(d, e).out;
      SentNow(d, e, x);
      assert false;
    }
  }

  lemma SentNow(d: Cluster, e: Event, x: AppendChunk)
    requires Enabled(d, e) && Append(x) in EffectOf(d, e).out
    ensures x.requestId == d.nextId
  {
  }

  lemma LighterStays(n: Node, m: Node, c: Cluster, d: Cluster, e: Event, p: PeerId)
    requires d.nextId == c.nextId && Lighter(n, m, p, d.net, c.nextId)
    ensures Lighter(n, m, p, Step(d, e).net, Step(d, e).nextId)
  {
    hide Step, LeftOver;
    if n.role.Follower? {
      forall id | id in n.role.pending && id !in m.role.pending
        ensures LeftOver(Step(d, e).net, Step(d, e).nextId, p, id)
      {
        NoNewChunks(c, d, e, p, id);
      }
    }
  }

  /** Delivering what remains, and delivering what is gone, keep the two in step. */
  lemma StepShadows(c: Cluster, d: Cluster, e: Event, l: PeerId, term: int)
    requires Shadows(c, d, l, term) && FixedMembership(c) && OneTerm(c, l, term) && OneTerm(Step(c, e), l, term)
    ensures Shadows(Step(c, e), Step(d, e), l, term)
  {
    hide EffectOf, Dead, LeftOver, OneTerm, FixedMembership;
    var c', d' := Step(c, e), Step(d, e);
    SameAvailability(c, d, e, l, term);
    if Enabled(c, e) {
      if Enabled(d, e) {
        SameEffect(c, d, e, l, term);
      } else {
        DeadIsIgnored(c, e, l, term);
      }
    }
    forall x | x in c'.net && x !in d'.net
      ensures Dead(c', x, l, term)
    {
      DeadStaysDead(c, e, x, l, term);
    }
    forall p | p in c.nodes
      ensures Lighter(c'.nodes[p], d'.nodes[p], p, d'.net, d'.nextId)
    {
      assert Lighter(c.nodes[p], d.nodes[p], p, d.net, c.nextId);
      LighterStays(c'.nodes[p], d'.nodes[p], c, d, e, p);
    }
  }

  lemma SameAvailability(c: Cluster, d: Cluster, e: Event, l: PeerId, term: int)
    requires Shadows(c, d, l, term)
    ensures Enabled(d, e) ==> Enabled(c, e)
    ensures Enabled(c, e) && !Enabled(d, e) ==> e.Deliver? && Dead(c, e.packet, l, term)
  {
    hide Dead, LeftOver;
    if Actor(e) in c.nodes {
      assert Lighter(c.nodes[Actor(e)], d.nodes[Actor(e)], Actor(e), d.net, c.nextId);
    }
  }

  // ---------- runs ----------

  function After(c: Cluster, es: seq<Event>, j: nat): Cluster
    requires j <= |es|
  {
    if j == 0 then c else Step(After(c, es, j - 1), es[j - 1])
  }

  lemma {:induction false} AfterShadows(tr: seq<Cluster>, es: seq<Event>, l: PeerId, term: int, j: nat)
    requires IsRun(tr, es) && FixedMembership(tr[0]) && AlwaysOneTerm(tr, l, term) && j < |tr|
    ensures Shadows(tr[j], After(Live(tr[0], l, term), es, j), l, term)
  {
    if j == 0 {
      LiveShadows(tr[0], l, term);
    } else {
      AfterShadows(tr, es, l, term, j - 1);
      RunMonotone(tr, es, 0, j - 1);
      hide Step, Shadows;
      assert tr[j - 1 + 1] == Step(tr[j - 1], es[j - 1]);
      StepShadows(tr[j - 1], After(Live(tr[0], l, term), es, j - 1), es[j - 1], l, term);
    }
  }

  /** The term check works: as long as one leader's term lasts, a run goes on exactly as the run of the same
      events from what is live at its start.  All peers' logs and commits are the same at every moment. */
  lemma LiveRun(tr: seq<Cluster>, es: seq<Event>, l: PeerId, term: int) returns (live: seq<Cluster>)
    requires IsRun(tr, es) && FixedMembership(tr[0]) && AlwaysOneTerm(tr, l, term)
    ensures IsRun(live, es) && live[0] == Live(tr[0], l, term) && AlwaysOneTerm(live, l, term)
    ensures forall j :: 0 <= j < |tr| ==> SameLogs(tr[j], live[j])
  {
    hide Step, OneTerm, Live;
    var start := Live(tr[0], l, term);
    live := seq(|tr|, j requires 0 <= j < |tr| => After(start, es, j));
    forall j | 0 <= j < |tr|
      ensures OneTerm(live[j], l, term) && SameLogs(tr[j], live[j])
    {
      AfterShadows(tr, es, l, term, j);
      ShadowFacts(tr[j], live[j], l, term);
    }
  }

  ghost predicate SameLogs(c: Cluster, d: Cluster) {
    && d.nodes.Keys == c.nodes.Keys
    && forall p :: p in c.nodes ==> d.nodes[p].log == c.nodes[p].log && d.nodes[p].commits == c.nodes[p].commits
  }
}
