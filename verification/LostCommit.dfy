/**
 Why a commit does not outlive its term: the vote check asks what the voter has committed, not what it
 holds.  A follower that holds a committed entry, but has not heard of the commit, elects a peer without it.
 */
module LostCommit {
  import opened Messages
  import opened RaftLogs
  import opened RaftNode
  import opened AppendEntriesRequests
  import opened Cluster
  import opened Elections
  import opened Replication
  import opened Scenarios
  import opened Misfiling

  const PLAIN := Setup(false, 0, true, None)

  function OneEntry(term: int, m: Message): LogState {
    LogState(map[0 := LogEntry(0, term, m, 0)], 0, 1, -1)
  }

  lemma FirstSubmit(term: int, m: Message)
    ensures Submit(EMPTY_LOG, term, m, 0) == OneEntry(term, m)
    ensures MessagesOf(Collect(OneEntry(term, m).entries, 0, 1)) == [m]
  {
    CollectFull(OneEntry(term, m).entries, 0, 1);
  }

  /** `n`, a leader with one entry and a request to `C` under way. */
  function Sending(n: Node, term: int, m: Message, id: RequestId): Node {
    n.(log := OneEntry(term, m), role := Leader(map[C := SentRequest(id, 0)]))
  }

  /** The same leader after `C` has answered. */
  function Committed(n: Node, term: int, m: Message): Node {
    n.(log := OneEntry(term, m).(commitIndex := 0), role := Leader(map[]),
       nextIndexes := map[C := 1], matchIndexes := map[C := 0], commits := [Commit(0, m)])
  }

  lemma ReplyOfC(n: Node, term: int, m: Message, id: RequestId)
    requires n.peers == {A, B, C} - {n.id} && (n.id == A || n.id == B) && n.currentTerm == term
    requires n.nextIndexes == map[] && n.matchIndexes == map[] && n.commits == [] && n.config.expirationTimeInMs == 0
    ensures LeaderOnReply(Sending(n, term, m, id), AppendResponse(id, C, n.id, term, true, 1, true), 0) ==
            Committed(n, term, m)
  {
    var r := AppendResponse(id, C, n.id, term, true, 1, true);
    var k := RecordReply(Sending(n, term, m, id), r);
    assert k.role == Leader(map[]) by {
      assert map[C := SentRequest(id, 0)] - {C} == map[];
    }
    assert Matching(k, 0) == {C};
    assert |k.peers| == 2 by {
      assert k.peers == if n.id == A then {B, C} else {A, C};
    }
    assert Committable(k, 0);
    assert BestCommit(k, 1) == 0;
    CommitHandsOutAll(k.log, 0);
    assert CommitLog(k, 0, 0).commits == [Commit(0, m)];
  }

  /** A leader of `term` that has stored nothing yet, with nothing under way. */
  ghost predicate Starting(n: Node, l: PeerId, term: int) {
    && (l == A || l == B) && n.id == l && n.peers == {A, B, C} - {l} && n.currentTerm == term
    && n.log == EMPTY_LOG && n.role == Leader(map[]) && n.commits == []
    && n.nextIndexes == map[] && n.matchIndexes == map[] && n.config.expirationTimeInMs == 0
  }

  function RequestFor(l: PeerId, term: int, id: RequestId): Header {
    Header(id, C, l, -1, 1, -1, -1, term)
  }

  lemma SendsFirst(n: Node, l: PeerId, term: int, m: Message, id: RequestId)
    requires Starting(n, l, term)
    ensures var k := SubmitTo(n, m, 0);
      && k == n.(log := OneEntry(term, m)) && HeaderFor(k, C, id) == RequestFor(l, term, id) && !Waiting(k, C, 0)
      && MessagesOf(Collect(k.log.entries, NextIndex(k, C), k.log.nextIndex)) == [m]
      && k.role.Leader? && C in k.peers
      && k.(role := Leader(k.role.sent[C := SentRequest(id, 0)])) == Sending(n, term, m, id)
  {
    FirstSubmit(term, m);
    hide Collect;
  }

  lemma SubmitsAndSends(setup: Setup, c: Cluster, l: PeerId, term: int, m: Message) returns (d: Cluster)
    requires Reachable(setup, c) && l in c.nodes && Starting(c.nodes[l], l, term) && VotesUpTo(c.net, term)
    ensures Reachable(setup, d) && VotesUpTo(d.net, term)
    ensures d.nodes == c.nodes[l := Sending(c.nodes[l], term, m, c.nextId)]
    ensures AllSent(d.net, RequestFor(l, term, c.nextId), [m])
  {
    SendsFirst(c.nodes[l], l, term, m, c.nextId);
    assert c.nodes[l].role.Leader?;
    hide Reachable, Collect, SubmitTo, MessagesOf, HeaderFor, Starting, Sending;
    d := Submits(setup, c, l, m, 0);
    var before := d;
    d := SendsEntries(setup, d, l, C, 0, [m]);
    VotesStay(before.net, d.net, term);
  }

  lemma CAnswers(setup: Setup, c: Cluster, h: Header, m: Message, term: int, after: Node) returns (d: Cluster)
    requires Reachable(setup, c) && VotesUpTo(c.net, term) && h.term == term && h.peerId == C
    requires C in c.nodes && Listens(c.nodes[C], h, [m]) && AllSent(c.net, h, [m])
    requires after == Installed(c.nodes[C], h, [m], 0) && after.log.nextIndex == 1
    ensures Reachable(setup, d) && VotesUpTo(d.net, term) && d.nodes == c.nodes[C := after]
    ensures AppendReply(AppendResponse(h.requestId, C, h.leaderId, term, true, 1, true)) in d.net
  {
    hide Reachable, Installed, Listens, AllSent, VotesUpTo, OnlyReplies;
    d := GetsRequest(setup, c, h, [m], 0);
    VotesStay(c.net, d.net, term);
  }

  lemma GetsAnswer(setup: Setup, c: Cluster, l: PeerId, r: AppendResponse, n: Node, m: Node) returns (d: Cluster)
    requires Reachable(setup, c) && l in c.nodes && c.nodes[l] == n && n.role.Leader? && r.destinationPeerId == l
    requires AppendReply(r) in c.net && LeaderOnReply(n, r, 0) == m
    ensures Reachable(setup, d) && d.nodes == c.nodes[l := m] && d.net == c.net
  {
    hide Reachable, LeaderOnReply;
    d := GetsReply(setup, c, r, 0);
  }

  /** `C` takes the request and answers, and the leader commits. */
  lemma AnsweredAndCommitted(
      setup: Setup, c: Cluster, l: PeerId, n: Node, term: int, m: Message, id: RequestId, after: Node)
    returns (d: Cluster)
    requires Reachable(setup, c) && l in c.nodes && Starting(n, l, term) && VotesUpTo(c.net, term)
    requires c.nodes[l] == Sending(n, term, m, id) && C in c.nodes
    requires Listens(c.nodes[C], RequestFor(l, term, id), [m]) && AllSent(c.net, RequestFor(l, term, id), [m])
    requires after == Installed(c.nodes[C], RequestFor(l, term, id), [m], 0) && after.log.nextIndex == 1
    ensures Reachable(setup, d) && VotesUpTo(d.net, term)
    ensures d.nodes == c.nodes[C := after][l := Committed(n, term, m)]
  {
    var r := AppendResponse(id, C, l, term, true, 1, true);
    ReplyOfC(n, term, m, id);
    assert l != C && Sending(n, term, m, id).role.Leader?;
    hide Reachable, Installed, LeaderOnReply, Starting, Sending, Committed, Listens, AllSent, VotesUpTo;
    d := CAnswers(setup, c, RequestFor(l, term, id), m, term, after);
    d := GetsAnswer(setup, d, l, r, Sending(n, term, m, id), Committed(n, term, m));
  }

  /** A new leader submits `m`, sends it to `C`, gets the answer and commits. */
  lemma CommitsWithC(setup: Setup, c: Cluster, l: PeerId, term: int, m: Message, after: Node) returns (d: Cluster)
    requires Reachable(setup, c) && l in c.nodes && Starting(c.nodes[l], l, term) && VotesUpTo(c.net, term)
    requires C in c.nodes && Listens(c.nodes[C], RequestFor(l, term, c.nextId), [m])
    requires after == Installed(c.nodes[C], RequestFor(l, term, c.nextId), [m], 0) && after.log.nextIndex == 1
    ensures Reachable(setup, d) && VotesUpTo(d.net, term)
    ensures d.nodes == c.nodes[C := after][l := Committed(c.nodes[l], term, m)]
  {
    assert l != C by { assert Starting(c.nodes[l], l, term); }
    hide Reachable, Installed, Starting, Sending, Committed, Listens, AllSent, VotesUpTo;
    d := SubmitsAndSends(setup, c, l, term, m);
    assert d.nodes[C] == c.nodes[C];
    d := AnsweredAndCommitted(setup, d, l, c.nodes[l], term, m, c.nextId, after);
  }

  /** `C` stores the first leader's entry, and the second leader's in its place. */
  lemma CStores(x: Message, y: Message, id: RequestId)
    ensures var n := Installed(FollowingA(C, PLAIN), RequestFor(A, 1, id), [x], 0);
      && n == FollowingA(C, PLAIN).(log := OneEntry(1, x))
      && Installed(n.(votedFor := Some(B)), RequestFor(B, 2, id), [y], 0) ==
           n.(votedFor := None, currentTerm := 2, leaderId := Some(B), log := OneEntry(2, y))
  {
    var s, t := Applied(EMPTY_LOG, 0, [x], 1, 0), Applied(OneEntry(1, x), 0, [y], 2, 0);
    assert s.entries == OneEntry(1, x).entries;
    assert t.entries == OneEntry(2, y).entries;
  }

  /** `A` has committed `x`; a majority, `A` and `C`, holds it under `A`'s stamp. */
  ghost predicate HeldByMajority(c: Cluster, x: Message) {
    && Leads(c, A, 1) && C in c.nodes && c.nodes[A].commits == [Commit(0, x)]
    && c.nodes[A].log == OneEntry(1, x).(commitIndex := 0) && c.nodes[C].log == OneEntry(1, x)
  }

  lemma FirstCommit(x: Message, y: Message) returns (c: Cluster)
    ensures Reachable(PLAIN, c) && HeldByMajority(c, x) && c.nodes.Keys == {A, B, C}
    ensures c.nodes[B] == FollowingA(B, PLAIN) && c.nodes[C] == FollowingA(C, PLAIN).(log := OneEntry(1, x))
    ensures VotesUpTo(c.net, 1)
  {
    c := TermOne(PLAIN);
    CStores(x, y, c.nextId);
    hide Reachable, Installed;
    c := CommitsWithC(PLAIN, c, A, 1, x, Installed(c.nodes[C], RequestFor(A, 1, c.nextId), [x], 0));
  }

  lemma SecondCommit(x: Message, y: Message) returns (c: Cluster, first: Cluster)
    ensures Reachable(PLAIN.(via := Some(first)), c) && HeldByMajority(first, x)
    ensures Leads(c, B, 2) && A in c.nodes && C in c.nodes
    ensures c.nodes[A].commits == [Commit(0, x)] && c.nodes[B].commits == [Commit(0, y)]
    ensures c.nodes[C].log == OneEntry(2, y)
  {
    first := FirstCommit(x, y);
    Passing(PLAIN, first);
    var setup := PLAIN.(via := Some(first));
    assert CanStand(first.nodes[B]);
    hide Reachable, Installed;
    c := Campaigns(setup, first, B);
    CStores(x, y, c.nextId);
    c := CommitsWithC(setup, c, B, 2, y, Installed(c.nodes[C], RequestFor(B, 2, c.nextId), [y], 0));
  }

  /** A commit can be lost: in a faithful run of a new three-peer cluster without expiry, `A` commits `x` at
      index 0 while a majority holds it, and the leader of the next term, elected by a peer that holds `x`,
      commits `y` at that index. */
  lemma CommitIsLost(x: Message, y: Message) returns (tr: seq<Cluster>, es: seq<Event>, i: nat)
    ensures IsRun(tr, es) && Fresh(tr[0]) && NeverExpires(tr[0]) && Faithful(tr)
    ensures i < |tr| && HeldByMajority(tr[i], x)
    ensures Leads(tr[|es|], B, 2) && A in tr[|es|].nodes && C in tr[|es|].nodes
    ensures tr[|es|].nodes[A].commits == [Commit(0, x)] && tr[|es|].nodes[B].commits == [Commit(0, y)]
    ensures tr[|es|].nodes[C].log == OneEntry(2, y)
  {
    var c, first := SecondCommit(x, y);
    var setup := PLAIN.(via := Some(first));
    NewcomersAreFresh(setup);
    tr, es :| IsRunTo(setup, tr, es, c);
    i :| 0 <= i < |tr| && tr[i] == first;
  }
}
