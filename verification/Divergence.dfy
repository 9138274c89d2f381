/**
 Why one term's safety does not carry over to the next: a follower's stale entry survives a change of
 leader, is counted as a copy of the new leader's entry, and is committed in its place.
 */
module Divergence {
  import opened Messages
  import opened RaftLogs
  import opened RaftNode
  import opened Cluster
  import opened Elections
  import opened Replication
  import opened Scenarios

  const SETUP := Setup(false, 0, true, None)

  function StaleLog(x: Message): LogState { Submit(EMPTY_LOG, 1, x, 0) }

  /** `B` leads term 2 with an empty log while `A`, still leading term 1, holds `x`. */
  ghost predicate SecondLeader(c: Cluster, x: Message) {
    && c.nodes.Keys == {A, B, C} && c.nextId == 2 && VotesUpTo(c.net, 2)
    && c.nodes[A] == Won(Newcomer(A, SETUP)).(log := StaleLog(x))
    && c.nodes[B] == Won(FollowingA(B, SETUP))
  }

  lemma VotesStayBounded(before: set<Packet>, after: set<Packet>, term: int)
    requires VotesUpTo(before, term) && OnlyVotes(before, after, term)
    ensures VotesUpTo(after, term)
  {
  }

  lemma TermTwo(x: Message) returns (c: Cluster)
    ensures Reachable(SETUP, c) && SecondLeader(c, x)
  {
    hide Reachable;
    c := TermOne(SETUP);
    c := Submits(SETUP, c, A, x, 0);
    var before := c;
    assert CanStand(FollowingA(B, SETUP));
    c := Campaigns(SETUP, c, B);
    VotesStayBounded(before.net, c.net, 2);
  }

  /** What `A` is once it has joined term 2, its log unchanged. */
  function Joined(x: Message): Node {
    Won(Newcomer(A, SETUP)).(log := StaleLog(x), currentTerm := 2, leaderId := Some(B), role := Follower(map[]))
  }

  lemma JoiningTermTwo(n: Node, x: Message, k: AppendChunk)
    requires n == Won(Newcomer(A, SETUP)).(log := StaleLog(x), leaderId := None, role := Follower(map[]))
    requires IsKeepAlive(k) && k.lastMessage && k.term == 2 && k.leaderId == B && k.leaderCommit == -1
    ensures FollowerOnChunk(n, k, 0) == Effect(Joined(x), {AppendReply(k.Response(true, 1, true))})
  {
    assert Adopt(n, k) == Joined(x);
    assert UpdateCommitIndex(Joined(x), -1, 0) == Joined(x);
  }

  lemma StepsDown(n: Node, k: AppendChunk)
    requires n.role.Leader? && n.id == A && n.currentTerm == 1 && n.peers == {B, C} && k.term == 2 && k.leaderId == B
    ensures LeaderOnChunk(n, k) == n.(leaderId := None, role := Follower(map[]))
  {
  }

  /** `A` steps down, joins term 2 and reports its next index, 1. */
  lemma AJoins(x: Message) returns (c: Cluster)
    ensures Reachable(SETUP, c)
    ensures c.nodes.Keys == {A, B, C} && c.nextId == 3
    ensures c.nodes[A] == Joined(x) && c.nodes[B] == Won(FollowingA(B, SETUP))
    ensures AppendReply(AppendResponse(2, A, B, 2, true, 1, true)) in c.net
  {
    hide Reachable;
    c := TermTwo(x);
    var hello := KeepAlive(c.nodes[B], A, 2);
    assert c.nodes[A].peers == {B, C};
    StepsDown(c.nodes[A], hello);
    JoiningTermTwo(LeaderOnChunk(c.nodes[A], hello), x, hello);
    hide FollowerOnChunk, LeaderOnChunk;
    c := Beats(SETUP, c, B, A);
    c := LeaderGetsChunk(SETUP, c, hello, 0);
    VotesBoundInvolvement(c, A, 2);
    c := GetsChunk(SETUP, c, hello, 0);
  }

  /** The new leader holds `y` at index 0 and has counted `A`'s `x` as a copy of it. */
  function Counted(y: Message): Node {
    var n := Won(FollowingA(B, SETUP)).(log := Submit(EMPTY_LOG, 2, y, 0),
                                        nextIndexes := map[A := 1], matchIndexes := map[A := 0]);
    n.(log := n.log.(commitIndex := 0), commits := [Commit(0, y)])
  }

  lemma BCommits(n: Node, y: Message)
    requires n == Won(FollowingA(B, SETUP)).(log := Submit(EMPTY_LOG, 2, y, 0))
    ensures LeaderOnReply(n, AppendResponse(2, A, B, 2, true, 1, true), 0) == Counted(y)
  {
    var r := AppendResponse(2, A, B, 2, true, 1, true);
    var m := RecordReply(n, r);
    assert m.role == Leader(map[]);
    assert Matching(m, 0) == {A};
    assert n.peers == {A, C};
    assert Committable(m, 0);
    assert BestCommit(m, 1) == 0;
    CommitHandsOutAll(m.log, 0);
    assert CommitLog(m, 0, 0).commits == [Commit(0, y)];
  }

  lemma ACommits(x: Message, k: AppendChunk)
    requires IsKeepAlive(k) && k.lastMessage && k.term == 2 && k.leaderId == B && k.leaderCommit == 0
    ensures FollowerOnChunk(Joined(x), k, 0).node ==
            Joined(x).(log := StaleLog(x).(commitIndex := 0), commits := [Commit(0, x)])
  {
    var m := Adopt(Joined(x), k);
    assert m == Joined(x);
    CommitHandsOutAll(m.log, 0);
    assert CommitLog(m, 0, 0).commits == [Commit(0, x)];
  }

  /** State-machine safety fails across terms: in a faithful run of a new three-peer cluster without
      expiry two peers commit different messages at index 0.  The leader sends no entries to a peer
      whose next index is past them, and takes that next index for a match. */
  lemma CommitsDiverge(x: Message, y: Message) returns (tr: seq<Cluster>, es: seq<Event>)
    requires x != y
    ensures IsRun(tr, es) && Fresh(tr[0]) && NeverExpires(tr[0]) && Faithful(tr)
    ensures A in tr[|es|].nodes && B in tr[|es|].nodes
    ensures tr[|es|].nodes[A].commits == [Commit(0, x)] && tr[|es|].nodes[B].commits == [Commit(0, y)]
  {
    var c := BothCommit(x, y);
    NewcomersAreFresh(SETUP);
    tr, es :| IsRunTo(SETUP, tr, es, c);
  }

  lemma BothCommit(x: Message, y: Message) returns (c: Cluster)
    ensures Reachable(SETUP, c) && A in c.nodes && B in c.nodes
    ensures c.nodes[A].commits == [Commit(0, x)] && c.nodes[B].commits == [Commit(0, y)]
  {
    hide Reachable;
    c := AJoins(x);
    c := Submits(SETUP, c, B, y, 0);
    BCommits(c.nodes[B], y);
    var beat := KeepAlive(Counted(y), A, 3);
    ACommits(x, beat);
    hide LeaderOnReply, FollowerOnChunk;
    c := GetsReply(SETUP, c, AppendResponse(2, A, B, 2, true, 1, true), 0);
    assert c.nodes[B] == Counted(y);
    c := Beats(SETUP, c, B, A);
    c := GetsChunk(SETUP, c, beat, 0);
  }
}
