/**
 How a follower's gap reset can corrupt a later term: a late chunk leaves an entry below the hole of its
 log; elected, it sends a request across the hole, and the receiver files the entries at wrong indices.
 */
module Misfiling {
  import opened Messages
  import opened RaftLogs
  import opened AppendEntriesRequests
  import opened RaftNode
  import opened Cluster
  import opened Elections
  import opened Scenarios

  // ---------- a whole request arrives ----------

  function Upto(n: nat): (s: seq<int>)
    ensures |s| == n && forall i :: 0 <= i < n ==> s[i] == i
  {
    seq(n, i => i)
  }

  /** The assembler after the first `i` chunks. */
  ghost function Gathered(h: Header, es: seq<Message>, i: nat): Assembler
    requires i <= |es|
  {
    AppendEntriesRequests.Deliver(h, es, Upto(i))
  }

  /** The follower after the first `i` chunks of a request, `i` below their number. */
  ghost function Partly(n: Node, h: Header, es: seq<Message>, i: nat): Node
    requires n.role.Follower? && i < |es|
  {
    if i == 0 then n
    else
      Adopt(n, h.EntryChunk(es, 0)).(role := Follower(n.role.pending[h.requestId := Gathered(h, es, i)]))
  }

  /** The follower after the whole request. */
  function Installed(n: Node, h: Header, es: seq<Message>, now: int): Node
    requires n.role.Follower? && es != []
  {
    var m := Adopt(n, h.EntryChunk(es, 0));
    var start := h.leaderNextIndex - |es|;
    UpdateCommitIndex(m.(log := Applied(GapReset(m.log, start), start, es, m.currentTerm, now)), h.leaderCommit, now)
  }

  ghost predicate Listens(n: Node, h: Header, es: seq<Message>) {
    n.role.Follower? && n.role.pending == map[] && n.id == h.peerId && n.currentTerm <= h.term && es != []
  }

  ghost predicate AllSent(net: set<Packet>, h: Header, es: seq<Message>) {
    forall i :: 0 <= i < |es| ==> Append(h.EntryChunk(es, i)) in net
  }

  /** Between two states only replies were sent. */
  ghost predicate OnlyReplies(before: set<Packet>, after: set<Packet>) {
    before <= after && forall p :: p in after && p !in before ==> p.AppendReply?
  }

  lemma NextAssembler(n: Node, h: Header, es: seq<Message>, i: nat)
    requires Listens(n, h, es) && i < |es|
    ensures var a := AddChunk(PendingFor(Partly(n, h, es, i), h.requestId), h.EntryChunk(es, i));
      && a == Gathered(h, es, i + 1)
      && !Throws(PendingFor(Partly(n, h, es, i), h.requestId), h.EntryChunk(es, i))
      && (a.ready <==> i + 1 == |es|) && (a.ready ==> a.entriesList == es && a.leaderNextIndex == h.leaderNextIndex)
  {
    assert Upto(i + 1)[..i] == Upto(i);
    RoundTrip(h, es, Upto(i));
    RoundTrip(h, es, Upto(i + 1));
    assert i !in Upto(i);
    if i == 0 {
      assert Upto(0) == [];
    }
  }

  /** Every chunk of a request adopts the same term and leader. */
  lemma AdoptsOnce(n: Node, h: Header, es: seq<Message>, i: nat)
    requires Listens(n, h, es) && i < |es|
    ensures var m := Adopt(Partly(n, h, es, i), h.EntryChunk(es, i));
      && m == (if i == 0 then Adopt(n, h.EntryChunk(es, 0)) else Partly(n, h, es, i))
      && m.(role := Follower(map[])) == Adopt(n, h.EntryChunk(es, 0))
      && PendingFor(m, h.requestId) == PendingFor(Partly(n, h, es, i), h.requestId)
      && m.role.pending.Keys <= {h.requestId}
  {
    hide Gathered;
  }

  lemma EntryChunkTaken(x: Node, c: AppendChunk, now: int)
    requires x.role.Follower? && x.currentTerm <= c.term && c.entry.Some?
    ensures FollowerOnChunk(x, c, now) == FollowerOnEntryChunk(Adopt(x, c), c, now)
  {
    hide FollowerOnEntryChunk;
  }

  lemma OnlyKey<K, V>(m: map<K, V>, k: K, v: V)
    requires m.Keys <= {k}
    ensures m[k := v] == map[k := v] && m - {k} == map[]
  {
  }

  lemma PendingChunk(m: Node, c: AppendChunk, now: int, a: Assembler)
    requires m.role.Follower? && a == AddChunk(PendingFor(m, c.requestId), c)
    requires !Throws(PendingFor(m, c.requestId), c) && m.role.pending.Keys <= {c.requestId}
    ensures FollowerOnEntryChunk(m, c, now) ==
            if a.ready then Install(m.(role := Follower(map[])), a, c, now)
            else Effect(m.(role := Follower(map[c.requestId := a])), {AppendReply(c.Response(true, -1, false))})
  {
    hide AddChunk, Throws, Install;
    OnlyKey(m.role.pending, c.requestId, a);
  }

  /** One chunk before the last leaves the request pending. */
  lemma ChunkPends(n: Node, h: Header, es: seq<Message>, i: nat, now: int)
    requires Listens(n, h, es) && i + 1 < |es|
    ensures var c := h.EntryChunk(es, i);
      FollowerOnChunk(Partly(n, h, es, i), c, now) ==
      Effect(Partly(n, h, es, i + 1), {AppendReply(c.Response(true, -1, false))})
  {
    NextAssembler(n, h, es, i);
    AdoptsOnce(n, h, es, i);
    var x, c := Partly(n, h, es, i), h.EntryChunk(es, i);
    var m := Adopt(x, c);
    assert x.currentTerm <= c.term;
    assert Partly(n, h, es, i + 1) == m.(role := Follower(map[h.requestId := Gathered(h, es, i + 1)])) by {
      hide Gathered;
      assert n.role.pending[h.requestId := Gathered(h, es, i + 1)]
             == map[h.requestId := Gathered(h, es, i + 1)];
    }
    hide AddChunk, Throws, Gathered, Partly, Adopt, PendingFor;
    EntryChunkTaken(x, c, now);
    PendingChunk(m, c, now, Gathered(h, es, i + 1));
    hide FollowerOnChunk, FollowerOnEntryChunk;
  }

  lemma InstallIsInstalled(n: Node, h: Header, es: seq<Message>, a: Assembler, now: int)
    requires n.role.Follower? && es != [] && a.entriesList == es && a.leaderNextIndex == h.leaderNextIndex
    ensures var c, m := h.EntryChunk(es, |es| - 1), Installed(n, h, es, now);
      Install(Adopt(n, h.EntryChunk(es, 0)), a, c, now) ==
      Effect(m, {AppendReply(c.Response(true, m.log.nextIndex, true))})
  {
    hide Applied, GapReset, UpdateCommitIndex, Adopt;
  }

  /** The last chunk installs it. */
  lemma LastChunkInstalls(n: Node, h: Header, es: seq<Message>, now: int)
    requires Listens(n, h, es)
    ensures var c, m := h.EntryChunk(es, |es| - 1), Installed(n, h, es, now);
      FollowerOnChunk(Partly(n, h, es, |es| - 1), c, now) ==
      Effect(m, {AppendReply(c.Response(true, m.log.nextIndex, true))})
  {
    var i := |es| - 1;
    NextAssembler(n, h, es, i);
    AdoptsOnce(n, h, es, i);
    var x, c, a := Partly(n, h, es, i), h.EntryChunk(es, i), Gathered(h, es, i + 1);
    assert x.role.Follower? && x.currentTerm <= c.term;
    hide AddChunk, Throws, Gathered, Partly, Adopt, PendingFor, Installed, Install;
    EntryChunkTaken(x, c, now);
    PendingChunk(Adopt(x, c), c, now, a);
    InstallIsInstalled(n, h, es, a, now);
    hide FollowerOnChunk, FollowerOnEntryChunk;
  }

  lemma InstalledRole(n: Node, h: Header, es: seq<Message>, now: int)
    requires n.role.Follower? && es != []
    ensures Installed(n, h, es, now).role == n.role && Installed(n, h, es, now).id == n.id
    ensures Installed(n, h, es, now).votedFor == Adopt(n, h.EntryChunk(es, 0)).votedFor
  {
    hide Applied, GapReset, CommitUntil, NewlyCommitted, CommitsOf;
  }

  /** What keeps the delivery faithful: no vote to lose, or none above the request's term. */
  ghost predicate MayAdopt(c: Cluster, n: Node, term: int) {
    n.votedFor.None? || VotesUpTo(c.net, term)
  }

  lemma AdoptingIsHarmless(c: Cluster, n: Node, m: Node, h: Header, es: seq<Message>)
    requires n.role.Follower? && n.currentTerm <= h.term && es != [] && MayAdopt(c, n, h.term)
    requires m.votedFor == Adopt(n, h.EntryChunk(es, 0)).votedFor && m.currentTerm == h.term
    ensures Harmless(c, n, m)
  {
    if n.votedFor.Some? {
      VotesBoundInvolvement(c, n.id, h.term);
    }
  }

  lemma {:induction false} GetsSome(setup: Setup, c: Cluster, h: Header, es: seq<Message>, i: nat, now: int)
    returns (d: Cluster)
    requires Reachable(setup, c) && h.peerId in c.nodes && Listens(c.nodes[h.peerId], h, es) && i < |es|
    requires AllSent(c.net, h, es) && MayAdopt(c, c.nodes[h.peerId], h.term)
    ensures Reachable(setup, d) && OnlyReplies(c.net, d.net) && d.nextId == c.nextId
    ensures d.nodes == c.nodes[h.peerId := Partly(c.nodes[h.peerId], h, es, i)]
  {
    hide Reachable, FollowerOnChunk;
    var n := c.nodes[h.peerId];
    if i == 0 {
      d := c;
    } else {
      d := GetsSome(setup, c, h, es, i - 1, now);
      ChunkPends(n, h, es, i - 1, now);
      if i == 1 {
        AdoptingIsHarmless(c, n, Partly(n, h, es, 1), h, es);
        assert Harmless(d, n, Partly(n, h, es, 1)) by { SameVotes(c, d, n, Partly(n, h, es, 1)); }
      }
      assert Harmless(d, Partly(n, h, es, i - 1), Partly(n, h, es, i));
      d := GetsChunk(setup, d, h.EntryChunk(es, i - 1), now);
    }
  }

  lemma SameVotes(c: Cluster, d: Cluster, n: Node, m: Node)
    requires OnlyReplies(c.net, d.net) && Harmless(c, n, m)
    ensures Harmless(d, n, m)
  {
    forall t | Involved(d, n.id, t)
      ensures Involved(c, n.id, t)
    {
      InvolvedBefore(c, d, n.id, t);
    }
  }

  lemma InvolvedBefore(c: Cluster, d: Cluster, p: PeerId, t: int)
    requires OnlyReplies(c.net, d.net) && Involved(d, p, t)
    ensures Involved(c, p, t)
  {
    if Stood(d, p, t) {
      var r: VoteRequest :| Vote(r) in d.net && r.candidateId == p && r.term == t;
      assert Vote(r) in c.net;
    } else {
      var x :| Granted(d, p, t, x);
      assert Granted(c, p, t, x);
    }
  }

  /** All chunks of a request reach a follower, in order; it installs the request and reports its next index. */
  lemma GetsRequest(setup: Setup, c: Cluster, h: Header, es: seq<Message>, now: int) returns (d: Cluster)
    requires Reachable(setup, c) && h.peerId in c.nodes && Listens(c.nodes[h.peerId], h, es)
    requires AllSent(c.net, h, es) && MayAdopt(c, c.nodes[h.peerId], h.term)
    ensures Reachable(setup, d) && OnlyReplies(c.net, d.net) && d.nextId == c.nextId
    ensures var m := Installed(c.nodes[h.peerId], h, es, now);
      && d.nodes == c.nodes[h.peerId := m]
      && AppendReply(AppendResponse(h.requestId, h.peerId, h.leaderId, h.term, true, m.log.nextIndex, true)) in d.net
  {
    hide Reachable, FollowerOnChunk, Installed;
    var n, last := c.nodes[h.peerId], |es| - 1;
    d := GetsSome(setup, c, h, es, last, now);
    LastChunkInstalls(n, h, es, now);
    LastIsHarmless(c, d, n, h, es, now);
    var before := d;
    d := GetsChunk(setup, d, h.EntryChunk(es, last), now);
    OneReplyMore(c.net, before.net, d.net);
  }

  lemma OneReplyMore(a: set<Packet>, b: set<Packet>, c: set<Packet>)
    requires OnlyReplies(a, b) && b <= c && forall p :: p in c && p !in b ==> p.AppendReply?
    ensures OnlyReplies(a, c)
  {
  }

  lemma LastIsHarmless(c: Cluster, d: Cluster, n: Node, h: Header, es: seq<Message>, now: int)
    requires Listens(n, h, es) && OnlyReplies(c.net, d.net) && MayAdopt(c, n, h.term)
    ensures Harmless(d, Partly(n, h, es, |es| - 1), Installed(n, h, es, now))
  {
    InstalledRole(n, h, es, now);
    InstalledTerm(n, h, es, now);
    hide Installed;
    if |es| == 1 {
      AdoptingIsHarmless(c, n, Installed(n, h, es, now), h, es);
      SameVotes(c, d, n, Installed(n, h, es, now));
    }
  }

  lemma InstalledTerm(n: Node, h: Header, es: seq<Message>, now: int)
    requires n.role.Follower? && es != [] && n.currentTerm <= h.term
    ensures Installed(n, h, es, now).currentTerm == h.term
  {
    hide Applied, GapReset, CommitUntil, NewlyCommitted, CommitsOf;
  }

  // ---------- the run ----------

  /** When the delayed packets arrive; by then the first entries are older than the expiration time. */
  const LATER := 400000

  const SETUP := Setup(false, 300000, true, None)

  /** A leader sends a peer entries. */
  lemma SendsEntries(setup: Setup, c: Cluster, l: PeerId, to: PeerId, now: int, es: seq<Message>) returns (d: Cluster)
    requires Reachable(setup, c) && l in c.nodes && c.nodes[l].role.Leader? && to in c.nodes[l].peers
    requires var n := c.nodes[l];
      && !Waiting(n, to, now) && es != []
      && MessagesOf(Collect(n.log.entries, NextIndex(n, to), n.log.nextIndex)) == es
    ensures Reachable(setup, d) && d.nextId == c.nextId + 1 && NoNewVotes(c.net, d.net)
    ensures var n := c.nodes[l];
      && d.nodes == c.nodes[l := n.(role := Leader(n.role.sent[to := SentRequest(c.nextId, now)]))]
      && AllSent(d.net, HeaderFor(n, to, c.nextId), es)
  {
    var n, h := c.nodes[l], HeaderFor(c.nodes[l], to, c.nextId);
    assert LeaderSend(n, to, now, c.nextId).out == ChunksOf(h, es);
    assert AllSent(ChunksOf(h, es), h, es);
    d := Sends(setup, c, l, to, now);
    hide Reachable, Collect;
  }

  ghost predicate NoNewVotes(before: set<Packet>, after: set<Packet>) {
    before <= after && forall p :: p in after && p !in before ==> !p.Vote? && !p.VoteReply?
  }

  lemma VotesStay(before: set<Packet>, after: set<Packet>, term: int)
    requires VotesUpTo(before, term) && (NoNewVotes(before, after) || OnlyReplies(before, after))
    ensures VotesUpTo(after, term)
  {
  }

  function FullEntries(xs: seq<Message>): map<int, LogEntry>
    requires |xs| == 4
  {
    map[0 := LogEntry(0, 1, xs[0], 0), 1 := LogEntry(1, 1, xs[1], 0),
        2 := LogEntry(2, 1, xs[2], 0), 3 := LogEntry(3, 1, xs[3], 0)]
  }

  function FullLog(xs: seq<Message>): LogState
    requires |xs| == 4
  {
    LogState(FullEntries(xs), 0, 4, -1)
  }

  lemma FourSubmits(xs: seq<Message>)
    requires |xs| == 4
    ensures Submit(Submit(Submit(Submit(EMPTY_LOG, 1, xs[0], 0), 1, xs[1], 0), 1, xs[2], 0), 1, xs[3], 0) == FullLog(xs)
  {
  }

  /** What `A` sends `B` first, and what arrives last. */
  const LATE := Header(2, B, A, -1, 1, -1, -1, 1)

  /** `A` holds four entries; its request with the first one is on its way to `B`. */
  ghost predicate Prepared(c: Cluster, xs: seq<Message>)
    requires |xs| == 4
  {
    && c.nodes == map[A := Won(Newcomer(A, SETUP)).(log := FullLog(xs), role := Leader(map[B := SentRequest(2, 0)])),
                      B := FollowingA(B, SETUP), C := FollowingA(C, SETUP)]
    && c.nextId == 3 && VotesUpTo(c.net, 1) && AllSent(c.net, LATE, [xs[0]])
  }

  lemma Prepares(xs: seq<Message>) returns (c: Cluster)
    requires |xs| == 4
    ensures Reachable(SETUP, c) && Prepared(c, xs)
  {
    hide Reachable;
    c := TermOne(SETUP);
    c := Submits(SETUP, c, A, xs[0], 0);
    var first := Submit(EMPTY_LOG, 1, xs[0], 0);
    CollectFull(first.entries, 0, 1);
    assert MessagesOf(Collect(first.entries, 0, 1)) == [xs[0]];
    var before := c;
    c := SendsEntries(SETUP, c, A, B, 0, [xs[0]]);
    VotesStay(before.net, c.net, 1);
    hide Submit, Collect;
    c := Submits(SETUP, c, A, xs[1], 0);
    c := Submits(SETUP, c, A, xs[2], 0);
    c := Submits(SETUP, c, A, xs[3], 0);
    FourSubmits(xs);
  }

  lemma CollectsFour(xs: seq<Message>)
    requires |xs| == 4
    ensures MessagesOf(Collect(FullEntries(xs), 0, 4)) == xs
    ensures CommitsOf(Collect(FullEntries(xs), 0, 4)) ==
            [Commit(0, xs[0]), Commit(1, xs[1]), Commit(2, xs[2]), Commit(3, xs[3])]
  {
    CollectFull(FullEntries(xs), 0, 4);
  }

  /** `C` takes all four entries. */
  lemma CIsFilled(xs: seq<Message>, h: Header)
    requires |xs| == 4 && h == Header(3, C, A, -1, 4, -1, -1, 1)
    ensures Installed(FollowingA(C, SETUP), h, xs, 0) == FollowingA(C, SETUP).(log := FullLog(xs))
  {
    assert Adopt(FollowingA(C, SETUP), h.EntryChunk(xs, 0)) == FollowingA(C, SETUP);
    AppliesAll(xs);
    hide Applied, FullLog;
  }

  lemma AppliesAll(xs: seq<Message>)
    requires |xs| == 4
    ensures Applied(GapReset(EMPTY_LOG, 0), 0, xs, 1, 0) == FullLog(xs)
  {
    ApplyLoopTotal(EMPTY_LOG, 0, xs, 1, 0);
    hide Applied;
    assert Applied(EMPTY_LOG, 0, xs, 1, 0).entries == FullEntries(xs);
  }

  /** `A` after the reply of `C`: everything committed, the first two entries expired. */
  function Expired(xs: seq<Message>): Node
    requires |xs| == 4
  {
    Won(Newcomer(A, SETUP)).(
      log := LogState(map[2 := LogEntry(2, 1, xs[2], 0), 3 := LogEntry(3, 1, xs[3], 0)], 2, 4, 3),
      role := Leader(map[B := SentRequest(2, 0)]), nextIndexes := map[C := 4], matchIndexes := map[C := 3],
      commits := [Commit(0, xs[0]), Commit(1, xs[1]), Commit(2, xs[2]), Commit(3, xs[3])])
  }

  lemma LogExpires(xs: seq<Message>)
    requires |xs| == 4
    ensures CommitUntil(FullLog(xs), 3, 300000, LATER) ==
            LogState(map[2 := LogEntry(2, 1, xs[2], 0), 3 := LogEntry(3, 1, xs[3], 0)], 2, 4, 3)
  {
    var s := FullLog(xs).(commitIndex := 3);
    var hi := LATER - 300000;
    assert FirstFresh(s.entries, 3, 3, hi) == 3;
    assert FirstFresh(s.entries, 2, 3, hi) == 3;
    assert FirstFresh(s.entries, 1, 3, hi) == 3;
    assert FirstFresh(s.entries, 0, 3, hi) == 3;
    assert ExpiredIndex(s, 300000, LATER) == 2;
    assert Without(s.entries, 0, 2) == map[2 := LogEntry(2, 1, xs[2], 0), 3 := LogEntry(3, 1, xs[3], 0)];
  }

  lemma ACommitsAll(n: Node, xs: seq<Message>, r: AppendResponse)
    requires |xs| == 4 && r == AppendResponse(3, C, A, 1, true, 4, true)
    requires n == TwoUnderWay(xs)
    ensures LeaderOnReply(n, r, LATER) == Expired(xs)
  {
    var m := RecordReply(n, r);
    assert m.role == Leader(map[B := SentRequest(2, 0)]) by {
      assert n.role.sent - {C} == map[B := SentRequest(2, 0)];
    }
    assert Matching(m, 3) == {C};
    assert m.peers == {B, C};
    assert Committable(m, 3);
    assert BestCommit(m, 4) == 3;
    LogExpires(xs);
    CollectsFour(xs);
    assert CommitLog(m, 3, LATER) == Expired(xs) by {
      hide CommitUntil;
      assert NewlyCommitted(m.log, 3) == Collect(FullEntries(xs), 0, 4);
    }
    hide CommitLog, RecordReply;
  }

  /** `B` drops its log for a request that starts at index 2. */
  function Reset2(xs: seq<Message>): Node
    requires |xs| == 4
  {
    FollowingA(B, SETUP).(
      log := LogState(map[2 := LogEntry(2, 1, xs[2], LATER), 3 := LogEntry(3, 1, xs[3], LATER)], 2, 4, 3),
      commits := [Commit(3, xs[3])])
  }

  lemma KeepsFresh(s: LogState)
    requires s.firstIndex in s.entries && s.firstIndex < s.commitIndex
    requires LATER <= s.entries[s.firstIndex].timestamp
    ensures Expire(s, 300000, LATER) == s
  {
    assert FirstFresh(s.entries, s.firstIndex, s.commitIndex, LATER - 300000) == s.firstIndex;
  }

  lemma BResets(xs: seq<Message>, h: Header)
    requires |xs| == 4 && h == Header(4, B, A, 3, 4, -1, -1, 1)
    ensures Installed(FollowingA(B, SETUP), h, [xs[2], xs[3]], LATER) == Reset2(xs)
  {
    var n, es := FollowingA(B, SETUP), [xs[2], xs[3]];
    assert Adopt(n, h.EntryChunk(es, 0)) == n;
    var t := Applied(Reset(2), 2, es, 1, LATER);
    var entries := map[2 := LogEntry(2, 1, xs[2], LATER), 3 := LogEntry(3, 1, xs[3], LATER)];
    assert t.entries == entries;
    assert t == LogState(entries, 2, 4, 2);
    CollectFull(entries, 3, 4);
    KeepsFresh(LogState(entries, 2, 4, 3));
    assert CommitLog(n.(log := t), 3, LATER).commits == [Commit(3, xs[3])];
  }

  /** The late chunk leaves an entry below the hole. */
  function Stray(xs: seq<Message>): Node
    requires |xs| == 4
  {
    Reset2(xs).(log := Reset2(xs).log.(entries := Reset2(xs).log.entries[0 := LogEntry(0, 1, xs[0], LATER)]))
  }

  lemma BStrays(xs: seq<Message>)
    requires |xs| == 4
    ensures Installed(Reset2(xs), LATE, [xs[0]], LATER) == Stray(xs)
  {
    var n := Reset2(xs);
    assert Adopt(n, LATE.EntryChunk([xs[0]], 0)) == n;
    var t := Applied(n.log, 0, [xs[0]], 1, LATER);
    assert t.entries == n.log.entries[0 := LogEntry(0, 1, xs[0], LATER)];
  }

  lemma StrayCollects(xs: seq<Message>)
    requires |xs| == 4
    ensures MessagesOf(Collect(Stray(xs).log.entries, 0, 4)) == [xs[0], xs[2], xs[3]]
    ensures !NoStragglers(Stray(xs).log) && !ClosedUpward(Stray(xs).log.entries, 0, 4)
  {
    var entries := Stray(xs).log.entries;
    CollectSplit(entries, 0, 1, 4);
    CollectSplit(entries, 1, 2, 4);
    CollectFull(entries, 0, 1);
    CollectNothing(entries, 1, 2);
    CollectFull(entries, 2, 4);
    assert 0 in entries && 1 !in entries;
  }

  lemma ExpiredCollects(xs: seq<Message>)
    requires |xs| == 4
    ensures MessagesOf(Collect(Expired(xs).log.entries, 0, 4)) == [xs[2], xs[3]]
  {
    var entries := Expired(xs).log.entries;
    CollectSplit(entries, 0, 2, 4);
    CollectNothing(entries, 0, 2);
    CollectFull(entries, 2, 4);
  }

  /** `C`, voted for `B`, files the first message at index 1 as well and commits it there. */
  lemma CMisfiles(n: Node, xs: seq<Message>, h: Header)
    requires |xs| == 4 && h == Header(5, C, B, 3, 4, -1, -1, 2)
    requires n == FollowingA(C, SETUP).(log := FullLog(xs), votedFor := Some(B))
    ensures Installed(n, h, [xs[0], xs[2], xs[3]], LATER).commits ==
            [Commit(0, xs[0]), Commit(1, xs[0]), Commit(2, xs[2]), Commit(3, xs[3])]
  {
    var es := [xs[0], xs[2], xs[3]];
    var m := Adopt(n, h.EntryChunk(es, 0));
    var t := Applied(m.log, 1, es, 2, LATER);
    assert t.entries == map[0 := LogEntry(0, 1, xs[0], 0), 1 := LogEntry(1, 2, xs[0], LATER),
                            2 := LogEntry(2, 2, xs[2], LATER), 3 := LogEntry(3, 2, xs[3], LATER)];
    assert t == LogState(t.entries, 0, 4, -1);
    CollectFull(t.entries, 0, 4);
    assert NewlyCommitted(t, 3) == Collect(t.entries, 0, 4);
    assert CommitsOf(NewlyCommitted(t, 3)) == [Commit(0, xs[0]), Commit(1, xs[0]), Commit(2, xs[2]), Commit(3, xs[3])];
    hide CommitUntil, NewlyCommitted, CommitsOf, Applied;
  }

  /** `A` with both its requests under way. */
  function TwoUnderWay(xs: seq<Message>): Node
    requires |xs| == 4
  {
    Won(Newcomer(A, SETUP)).(
      log := FullLog(xs), role := Leader(map[B := SentRequest(2, 0), C := SentRequest(3, 0)]))
  }

  /** `A` sends `C` all four entries. */
  lemma SendsFour(xs: seq<Message>, h: Header) returns (c: Cluster)
    requires |xs| == 4 && h == Header(3, C, A, -1, 4, -1, -1, 1)
    ensures Reachable(SETUP, c)
    ensures c.nodes == map[A := TwoUnderWay(xs), B := FollowingA(B, SETUP), C := FollowingA(C, SETUP)]
    ensures c.nextId == 4 && VotesUpTo(c.net, 1) && AllSent(c.net, LATE, [xs[0]]) && AllSent(c.net, h, xs)
  {
    hide Reachable;
    c := Prepares(xs);
    CollectsFour(xs);
    var before := c;
    assert HeaderFor(c.nodes[A], C, 3) == h;
    hide Collect;
    c := SendsEntries(SETUP, c, A, C, 0, xs);
    VotesStay(before.net, c.net, 1);
  }

  /** `C` takes all four entries and says so. */
  lemma CFills(xs: seq<Message>) returns (c: Cluster)
    requires |xs| == 4
    ensures Reachable(SETUP, c) && AppendReply(AppendResponse(3, C, A, 1, true, 4, true)) in c.net
    ensures c.nodes ==
            map[A := TwoUnderWay(xs), B := FollowingA(B, SETUP), C := FollowingA(C, SETUP).(log := FullLog(xs))]
    ensures c.nextId == 4 && VotesUpTo(c.net, 1) && AllSent(c.net, LATE, [xs[0]])
  {
    var h := Header(3, C, A, -1, 4, -1, -1, 1);
    CIsFilled(xs, h);
    hide Reachable, Installed, TwoUnderWay, VotesUpTo;
    c := SendsFour(xs, h);
    var before := c;
    c := GetsRequest(SETUP, c, h, xs, 0);
    VotesStay(before.net, c.net, 1);
  }

  /** `A` commits all four and expires the first two. */
  lemma ACommitsAndExpires(xs: seq<Message>) returns (c: Cluster)
    requires |xs| == 4
    ensures Reachable(SETUP, c)
    ensures c.nodes == map[A := Expired(xs), B := FollowingA(B, SETUP), C := FollowingA(C, SETUP).(log := FullLog(xs))]
    ensures c.nextId == 4 && VotesUpTo(c.net, 1) && AllSent(c.net, LATE, [xs[0]])
  {
    var r := AppendResponse(3, C, A, 1, true, 4, true);
    ACommitsAll(TwoUnderWay(xs), xs, r);
    assert TwoUnderWay(xs).role.Leader?;
    hide Reachable, LeaderOnReply, Expired, FullLog, FollowingA, TwoUnderWay;
    c := CFills(xs);
    c := GetsReply(SETUP, c, r, LATER);
  }

  /** `B` drops its log, takes the late chunk and is left with a stray entry. */
  lemma BGetsStray(xs: seq<Message>) returns (c: Cluster)
    requires |xs| == 4
    ensures Reachable(SETUP, c) && A in c.nodes && c.nodes[A].commits == Expired(xs).commits
    ensures c.nodes.Keys == {A, B, C} && c.nodes[B] == Stray(xs)
    ensures c.nodes[C] == FollowingA(C, SETUP).(log := FullLog(xs)) && c.nextId == 5 && VotesUpTo(c.net, 1)
  {
    hide Reachable;
    c := ACommitsAndExpires(xs);
    ExpiredCollects(xs);
    var before, h := c, HeaderFor(c.nodes[A], B, 4);
    assert h == Header(4, B, A, 3, 4, -1, -1, 1);
    c := SendsEntries(SETUP, c, A, B, LATER, [xs[2], xs[3]]);
    VotesStay(before.net, c.net, 1);
    BResets(xs, h);
    BStrays(xs);
    hide Installed, Collect, FullLog;
    before := c;
    c := GetsRequest(SETUP, c, h, [xs[2], xs[3]], LATER);
    VotesStay(before.net, c.net, 1);
    before := c;
    c := GetsRequest(SETUP, c, LATE, [xs[0]], LATER);
    VotesStay(before.net, c.net, 1);
  }

  /** `B` is elected and sends `C` a request across the hole. */
  lemma BMisleadsC(xs: seq<Message>) returns (c: Cluster)
    requires |xs| == 4
    ensures Reachable(SETUP, c) && A in c.nodes && B in c.nodes && C in c.nodes
    ensures Leads(c, B, 2) && !NoStragglers(c.nodes[B].log)
    ensures c.nodes[A].commits == [Commit(0, xs[0]), Commit(1, xs[1]), Commit(2, xs[2]), Commit(3, xs[3])]
    ensures c.nodes[C].commits == [Commit(0, xs[0]), Commit(1, xs[0]), Commit(2, xs[2]), Commit(3, xs[3])]
  {
    hide Reachable;
    c := BGetsStray(xs);
    assert CanStand(c.nodes[B]);
    var before := c;
    c := Campaigns(SETUP, c, B);
    assert VotesUpTo(c.net, 2);
    StrayCollects(xs);
    var es, h := [xs[0], xs[2], xs[3]], HeaderFor(c.nodes[B], C, 5);
    assert h == Header(5, C, B, 3, 4, -1, -1, 2);
    CMisfiles(c.nodes[C], xs, h);
    hide Installed, Collect;
    before := c;
    c := SendsEntries(SETUP, c, B, C, LATER, es);
    VotesStay(before.net, c.net, 2);
    c := GetsRequest(SETUP, c, h, es, LATER);
  }

  /** A faithful run of a new three-peer cluster in which a log with a stray entry leads: `C` commits at
      index 1 another message than `A`.  So agreement needs requests without holes, and a term that begins
      with a stray entry at its leader does not keep the peers in agreement. */
  lemma StrayLeaderMisfiles(xs: seq<Message>) returns (tr: seq<Cluster>, es: seq<Event>)
    requires |xs| == 4
    ensures IsRun(tr, es) && Fresh(tr[0]) && Faithful(tr) && Leads(tr[|es|], B, 2)
    ensures A in tr[|es|].nodes && B in tr[|es|].nodes && C in tr[|es|].nodes
    ensures !NoStragglers(tr[|es|].nodes[B].log)
    ensures var a, c := tr[|es|].nodes[A].commits, tr[|es|].nodes[C].commits;
      |a| == |c| == 4 && a[1] == Commit(1, xs[1]) && c[1] == Commit(1, xs[0])
  {
    var c := BMisleadsC(xs);
    NewcomersAreFresh(SETUP);
    tr, es :| IsRunTo(SETUP, tr, es, c);
  }
}
