/**
 What a well-behaved network lets the cluster achieve: a candidate that a majority will vote for is elected, and
 a leader that reaches a majority twice gets all it stored in its term committed, by itself and by them.
 */
module Progress {
  import opened Messages
  import opened RaftLogs
  import opened AppendEntriesRequests
  import opened RaftNode
  import opened Cluster
  import opened Agreement
  import opened Replication
  import opened LateArrivals
  import opened Listeners

  /** Some events lead from `c` to `d`. */
  ghost predicate LeadsTo(c: Cluster, d: Cluster) {
    exists es: seq<Event> :: After(c, es, |es|) == d
  }

  lemma {:induction false} AfterJoined(c: Cluster, a: seq<Event>, b: seq<Event>, j: nat)
    requires j <= |b|
    ensures After(c, a + b, |a| + j) == After(After(c, a, |a|), b, j)
  {
    if j == 0 {
      AfterPrefix(c, a, b, |a|);
    } else {
      AfterJoined(c, a, b, j - 1);
      assert (a + b)[|a| + j - 1] == b[j - 1];
    }
  }

  lemma {:induction false} AfterPrefix(c: Cluster, a: seq<Event>, b: seq<Event>, j: nat)
    requires j <= |a|
    ensures After(c, a + b, j) == After(c, a, j)
  {
    if j != 0 {
      AfterPrefix(c, a, b, j - 1);
    }
  }

  lemma Onward(c: Cluster, d: Cluster, e: Cluster)
    requires LeadsTo(c, d) && LeadsTo(d, e)
    ensures LeadsTo(c, e)
  {
    var a :| After(c, a, |a|) == d;
    var b :| After(d, b, |b|) == e;
    AfterJoined(c, a, b, |b|);
    assert After(c, a + b, |a + b|) == e;
  }

  lemma OneStep(c: Cluster, e: Event)
    ensures LeadsTo(c, Step(c, e)) && LeadsTo(c, c)
  {
    hide Step;
    var none: seq<Event> := [];
    assert After(c, none, |none|) == c;
    assert After(c, [e], 0) == c;
    assert After(c, [e], |[e]|) == Step(c, e);
  }

  /** The invariant of all runs without expiry. */
  ghost predicate Safe(c: Cluster) {
    exists hist :: SafeInv(c, hist)
  }

  lemma StepSafe(c: Cluster, e: Event)
    requires Safe(c)
    ensures Safe(Step(c, e)) && LeadsTo(c, Step(c, e))
  {
    OneStep(c, e);
    var hist :| SafeInv(c, hist);
    var hist' := StepKeepsSafe(c, e, hist);
  }

  /** What the invariant says of one leader and one follower. */
  lemma SafePair(c: Cluster, l: PeerId, f: PeerId)
    requires Safe(c) && l in c.nodes && f in c.nodes && l != f
    ensures var n, m := c.nodes[l], c.nodes[f];
      && n.id == l && f in n.peers && n.peers == c.nodes.Keys - {l} && m.id == f
      && Complete(n.log) && Complete(m.log) && -1 <= n.log.commitIndex
      && 0 <= NextIndex(n, f) <= m.log.nextIndex
      && (m.role.Follower? ==> c.nextId !in m.role.pending)
  {
    var hist :| SafeInv(c, hist);
    assert NodeSound(c.nodes[l], hist) && NodeSound(c.nodes[f], hist) && NextOk(c.nodes, c.nodes[l].nextIndexes);
  }

  // ---------- a request reaches a follower ----------

  /** Between `c` and `d` only follower `f` changed, and only packets were added. */
  ghost predicate OnlyAt(c: Cluster, d: Cluster, f: PeerId) {
    && f in c.nodes && f in d.nodes && d.nodes == c.nodes[f := d.nodes[f]] && c.net <= d.net && d.nextId == c.nextId
  }

  /** The follower has `i` chunks of the request, the log untouched. */
  ghost predicate HasPart(n: Node, m: Node, h: Header, es: seq<Message>, i: nat) {
    && m.role.Follower? && m.log == n.log && m.commits == n.commits && m.id == n.id
    && m.currentTerm <= h.term && (0 < i ==> m.currentTerm == h.term)
    && Gathering(PendingFor(m, h.requestId), h, es) && !PendingFor(m, h.requestId).ready
    && PendingFor(m, h.requestId).entries.Keys == Range(i)
  }

  lemma NextPart(n: Node, m: Node, h: Header, es: seq<Message>, i: nat, now: int)
    requires HasPart(n, m, h, es, i) && i + 1 < |es|
    ensures HasPart(n, FollowerOnChunk(m, h.EntryChunk(es, i), now).node, h, es, i + 1)
  {
    var c, a := h.EntryChunk(es, i), PendingFor(m, h.requestId);
    RangeSize(i);
    assert |a.entries| == |a.entries.Keys| && i !in a.entries.Keys;
    PartGathered(a, h, es, i);
    AddGathers(a, h, es, i);
    OtherChunkAssembled(m, c, now);
    assert Range(i + 1) == Range(i) + {i};
    hide AddChunk, Throws, Gathering, FollowerOnChunk, Range;
  }

  ghost predicate AllSent(net: set<Packet>, h: Header, es: seq<Message>) {
    forall i :: 0 <= i < |es| ==> Append(h.EntryChunk(es, i)) in net
  }

  lemma DeliverStep(c: Cluster, f: PeerId, x: AppendChunk, now: int)
    requires f in c.nodes && Append(x) in c.net && x.peerId == f && c.nodes[f].role.Follower?
    ensures var d, g := Step(c, Deliver(Append(x), now)), FollowerOnChunk(c.nodes[f], x, now);
      OnlyAt(c, d, f) && d.nodes[f] == g.node && g.out <= d.net
  {
    hide FollowerOnChunk;
  }

  lemma OnlyAtOnward(c: Cluster, d: Cluster, e: Cluster, f: PeerId)
    requires OnlyAt(c, d, f) && OnlyAt(d, e, f)
    ensures OnlyAt(c, e, f)
  {
  }

  /** The first `i` chunks are delivered in order. */
  lemma {:induction false} PartArrives(c: Cluster, f: PeerId, h: Header, es: seq<Message>, i: nat, now: int)
    returns (d: Cluster)
    requires Safe(c) && f in c.nodes && h.peerId == f && i < |es| && AllSent(c.net, h, es)
    requires HasPart(c.nodes[f], c.nodes[f], h, es, 0)
    ensures LeadsTo(c, d) && Safe(d) && OnlyAt(c, d, f) && HasPart(c.nodes[f], d.nodes[f], h, es, i)
  {
    hide Safe, LeadsTo, HasPart, Step, FollowerOnChunk;
    if i == 0 {
      d := c;
      OneStep(c, Tick(f, false));
    } else {
      var b := PartArrives(c, f, h, es, i - 1, now);
      var x := h.EntryChunk(es, i - 1);
      assert b.nodes[f].role.Follower? by { PartIsFollower(c.nodes[f], b.nodes[f], h, es, i - 1); }
      d := Step(b, Deliver(Append(x), now));
      DeliverStep(b, f, x, now);
      StepSafe(b, Deliver(Append(x), now));
      Onward(c, b, d);
      OnlyAtOnward(c, b, d, f);
      NextPart(c.nodes[f], b.nodes[f], h, es, i - 1, now);
    }
  }

  lemma PartIsFollower(n: Node, m: Node, h: Header, es: seq<Message>, i: nat)
    requires HasPart(n, m, h, es, i)
    ensures m.role.Follower?
  {
  }

  /** The peer follows in `term`, its log reaches `next` at least, and its commit index `commit`. */
  ghost predicate CaughtUp(m: Node, term: int, next: int, commit: int) {
    && m.role.Follower? && m.currentTerm == term && next <= m.log.nextIndex && commit <= m.log.commitIndex
  }

  lemma LastPart(n: Node, m: Node, h: Header, es: seq<Message>, now: int)
    requires es != [] && HasPart(n, m, h, es, |es| - 1) && WellFormed(n.log)
    requires h.leaderCommit < h.leaderNextIndex
    ensures var f := FollowerOnChunk(m, h.EntryChunk(es, |es| - 1), now);
      && CaughtUp(f.node, h.term, h.leaderNextIndex, h.leaderCommit)
      && AppendReply(AppendResponse(
           h.requestId, h.peerId, h.leaderId, h.term, true, f.node.log.nextIndex, true)) in f.out
  {
    hide FollowerOnChunk, Lacks, InstalledIn, HasPart, WellFormed, PendingFor, Adopting, CaughtUp;
    OneMissing(n, m, h, es);
    var x := h.EntryChunk(es, |es| - 1);
    var k, g := Adopting(m, x).(role := Follower(m.role.pending - {h.requestId})), FollowerOnChunk(m, x, now);
    AdoptsTerm(m, x);
    RequestInstalledExactly(m, h, es, |es| - 1, now);
    LastCatchesUp(k, g.node, h.leaderNextIndex - |es|, es, h.leaderCommit);
  }

  lemma AdoptsTerm(m: Node, x: AppendChunk)
    requires m.currentTerm <= x.term
    ensures Adopting(m, x).currentTerm == x.term
  {
  }

  lemma LastCatchesUp(k: Node, m: Node, start: int, es: seq<Message>, leaderCommit: int)
    requires InstalledIn(k, m, start, es, leaderCommit) && leaderCommit < start + |es| && k.role.Follower?
    ensures CaughtUp(m, k.currentTerm, start + |es|, leaderCommit)
  {
    hide WellFormed;
  }

  lemma OneMissing(n: Node, m: Node, h: Header, es: seq<Message>)
    requires es != [] && HasPart(n, m, h, es, |es| - 1) && WellFormed(n.log)
    ensures m.role.Follower? && m.currentTerm <= h.term && WellFormed(m.log)
    ensures Lacks(PendingFor(m, h.requestId), h, es, |es| - 1)
  {
    hide Gathering, Range, WellFormed;
    var a := PendingFor(m, h.requestId);
    RangeSize(|es| - 1);
    assert |a.entries| == |a.entries.Keys| && |es| - 1 !in a.entries.Keys;
  }

  /** A whole request is delivered and answered. */
  lemma RequestArrives(c: Cluster, f: PeerId, h: Header, es: seq<Message>, now: int) returns (d: Cluster)
    requires Safe(c) && f in c.nodes && h.peerId == f && es != [] && AllSent(c.net, h, es)
    requires HasPart(c.nodes[f], c.nodes[f], h, es, 0) && WellFormed(c.nodes[f].log)
    requires h.leaderCommit < h.leaderNextIndex
    ensures LeadsTo(c, d) && Safe(d) && OnlyAt(c, d, f)
    ensures CaughtUp(d.nodes[f], h.term, h.leaderNextIndex, h.leaderCommit)
    ensures AppendReply(AppendResponse(
              h.requestId, f, h.leaderId, h.term, true, d.nodes[f].log.nextIndex, true)) in d.net
  {
    hide Safe, LeadsTo, HasPart, Step, FollowerOnChunk, WellFormed;
    var b := PartArrives(c, f, h, es, |es| - 1, now);
    var x := h.EntryChunk(es, |es| - 1);
    PartIsFollower(c.nodes[f], b.nodes[f], h, es, |es| - 1);
    d := Step(b, Deliver(Append(x), now));
    DeliverStep(b, f, x, now);
    StepSafe(b, Deliver(Append(x), now));
    Onward(c, b, d);
    OnlyAtOnward(c, b, d, f);
    LastPart(c.nodes[f], b.nodes[f], h, es, now);
  }

  /** A keep-alive is delivered and answered. */
  lemma KeepAliveArrives(c: Cluster, f: PeerId, x: AppendChunk, now: int) returns (d: Cluster)
    requires Safe(c) && f in c.nodes && Append(x) in c.net && x.peerId == f && WellFormed(c.nodes[f].log)
    requires x.entry.None? && x.sequence == 0 && x.lastMessage
    requires c.nodes[f].role.Follower? && c.nodes[f].currentTerm <= x.term
    ensures LeadsTo(c, d) && Safe(d) && OnlyAt(c, d, f)
    ensures CaughtUp(d.nodes[f], x.term, c.nodes[f].log.nextIndex, Min(c.nodes[f].log.nextIndex - 1, x.leaderCommit))
    ensures AppendReply(AppendResponse(
              x.requestId, f, x.leaderId, x.term, true, d.nodes[f].log.nextIndex, true)) in d.net
  {
    hide Safe, LeadsTo, Step, FollowerOnChunk, WellFormed;
    d := Step(c, Deliver(Append(x), now));
    DeliverStep(c, f, x, now);
    StepSafe(c, Deliver(Append(x), now));
    KeepAliveTakenExactly(c.nodes[f], x, now);
  }

  // ---------- one exchange between a leader and a follower ----------

  /** What a heartbeat puts on its way. */
  lemma BeatStep(c: Cluster, l: PeerId, f: PeerId, now: int)
    requires l in c.nodes && c.nodes[l].role.Leader? && f in c.nodes[l].peers && !UnderWay(c.nodes[l], f, now)
    ensures var n, d := c.nodes[l], Step(c, Heartbeat(l, f, now));
      var h, es := HeaderFor(n, f, c.nextId), MessagesOf(Collect(n.log.entries, NextIndex(n, f), n.log.nextIndex));
      && d.nodes.Keys == c.nodes.Keys && (forall p :: p in c.nodes && p != l ==> d.nodes[p] == c.nodes[p])
      && d.nodes[l].role.Leader? && d.nodes[l].role.sent - {f} == n.role.sent - {f}
      && d.nodes[l] == n.(role := d.nodes[l].role)
      && if es == [] then Append(h.Chunk(0, true, None)) in d.net else AllSent(d.net, h, es)
  {
    hide Collect, MessagesOf, HeaderFor;
    var n := c.nodes[l];
    var es, h := MessagesOf(Collect(n.log.entries, NextIndex(n, f), n.log.nextIndex)), HeaderFor(n, f, c.nextId);
    var g := LeaderSend(n, f, now, c.nextId);
    assert EffectOf(c, Heartbeat(l, f, now)) == g;
    if es != [] {
      assert g.out == ChunksOf(h, es);
      forall i | 0 <= i < |es|
        ensures Append(h.EntryChunk(es, i)) in g.out
      {
        assert i in Range(|es|);
      }
    }
  }

  /** The leader `n` has become `k` by the answer that `f` stores everything below `x`. */
  ghost predicate Heard(n: Node, k: Node, f: PeerId, x: int)
    requires n.role.Leader?
  {
    && k == n.(role := Leader(n.role.sent - {f}), log := k.log, commits := k.commits,
               nextIndexes := n.nextIndexes[f := x], matchIndexes := n.matchIndexes[f := x - 1])
    && k.log.nextIndex == n.log.nextIndex && k.log.entries == n.log.entries && n.log.commitIndex <= k.log.commitIndex
    && forall i :: Eligible(n, k.matchIndexes, Min(n.log.nextIndex, x), i) ==> i <= k.log.commitIndex
  }

  lemma AnswerHeard(n: Node, r: AppendResponse, now: int)
    requires n.role.Leader? && Complete(n.log) && Complete(LeaderOnReply(n, r, now).log)
    requires r.term == n.currentTerm && r.processed && r.success
    ensures Heard(n, LeaderOnReply(n, r, now), r.sourcePeerId, r.peerNextIndex)
  {
    hide LeaderOnReply, Eligible, WellFormed;
    assert WellFormed(n.log) by { CompleteIsWellFormed(n.log); }
    ReplyCommitsExactly(n, r, now);
    var k := LeaderOnReply(n, r, now);
    SameEntries(n.log, k.log);
  }

  lemma SameEntries(s: LogState, t: LogState)
    requires Complete(s) && Complete(t) && s.nextIndex == t.nextIndex
    requires forall i :: i in t.entries ==> i in s.entries && t.entries[i] == s.entries[i]
    ensures t.entries == s.entries
  {
    assert forall i :: i in t.entries <==> 0 <= i < t.nextIndex;
    assert forall i :: i in s.entries <==> 0 <= i < t.nextIndex;
    hide Complete;
  }

  lemma CompleteIsWellFormed(s: LogState)
    requires Complete(s)
    ensures WellFormed(s)
  {
  }

  /** Between `c` and `d` only the two changed. */
  ghost predicate OnlyPair(c: Cluster, d: Cluster, l: PeerId, f: PeerId) {
    && l in c.nodes && f in c.nodes && d.nodes.Keys == c.nodes.Keys
    && forall p :: p in c.nodes && p != l && p != f ==> d.nodes[p] == c.nodes[p]
  }

  lemma AnswerStep(c: Cluster, l: PeerId, term: int, r: AppendResponse, now: int)
    requires Safe(c) && Leads(c, l, term) && AppendReply(r) in c.net && r.destinationPeerId == l
    requires r.term == term && r.processed && r.success
    ensures var d := Step(c, Deliver(AppendReply(r), now));
      && LeadsTo(c, d) && Safe(d) && d.nodes == c.nodes[l := d.nodes[l]]
      && Heard(c.nodes[l], d.nodes[l], r.sourcePeerId, r.peerNextIndex)
  {
    hide LeadsTo, Safe, Heard, LeaderOnReply;
    var e := Deliver(AppendReply(r), now);
    var d := Step(c, e);
    StepSafe(c, e);
    SafeLog(c, l);
    assert d.nodes[l] == LeaderOnReply(c.nodes[l], r, now);
    SafeLog(d, l);
    AnswerHeard(c.nodes[l], r, now);
  }

  lemma SafeLog(c: Cluster, p: PeerId)
    requires Safe(c) && p in c.nodes
    ensures Complete(c.nodes[p].log) && InOrder(c.nodes[p].commits, c.nodes[p].log.commitIndex)
  {
    var hist :| SafeInv(c, hist);
    assert NodeSound(c.nodes[p], hist);
  }

  /** Before a request arrives its receiver has nothing of it. */
  lemma HasNone(m: Node, h: Header, es: seq<Message>)
    requires m.role.Follower? && h.requestId !in m.role.pending && m.currentTerm <= h.term && es != []
    ensures HasPart(m, m, h, es, 0)
  {
    NewGathers(h, es);
  }

  /** A heartbeat, its delivery and the answer: the follower has caught up with the leader, and the leader knows. */
  lemma Exchange(c: Cluster, l: PeerId, f: PeerId, term: int, now: int) returns (d: Cluster)
    requires Safe(c) && Leads(c, l, term) && f in c.nodes && f != l && !UnderWay(c.nodes[l], f, now)
    requires c.nodes[f].role.Follower? && c.nodes[f].currentTerm <= term
    ensures LeadsTo(c, d) && Safe(d) && OnlyPair(c, d, l, f) && Leads(d, l, term)
    ensures CaughtUp(d.nodes[f], term, c.nodes[l].log.nextIndex, c.nodes[l].log.commitIndex)
    ensures Heard(c.nodes[l], d.nodes[l], f, d.nodes[f].log.nextIndex)
  {
    hide Safe, LeadsTo, Step, HasPart, Heard, UnderWay, CaughtUp, Complete;
    var n := c.nodes[l];
    SafePair(c, l, f);
    StepSafe(c, Heartbeat(l, f, now));
    var b := Step(c, Heartbeat(l, f, now));
    BeatStep(c, l, f, now);
    var a, x := Delivered(c, b, l, f, term, now);
    d := Step(a, Deliver(AppendReply(x), now));
    AnswerStep(a, l, term, x, now);
    Onward(c, b, a);
    Onward(c, a, d);
    HeardAlike(n, a.nodes[l], d.nodes[l], f, x.peerNextIndex);
  }

  /** The request under way to `f` makes no difference once `f` has answered. */
  lemma HeardAlike(n: Node, b: Node, k: Node, f: PeerId, x: int)
    requires n.role.Leader? && b.role.Leader? && b == n.(role := b.role) && b.role.sent - {f} == n.role.sent - {f}
    requires Heard(b, k, f, x)
    ensures Heard(n, k, f, x) && k.role.Leader? && k.currentTerm == n.currentTerm
  {
    forall i
      ensures Eligible(n, k.matchIndexes, Min(n.log.nextIndex, x), i) <==>
              Eligible(b, k.matchIndexes, Min(b.log.nextIndex, x), i)
    {
    }
    hide Eligible;
  }

  /** What the heartbeat put on its way reaches the follower and is answered. */
  lemma Delivered(c: Cluster, b: Cluster, l: PeerId, f: PeerId, term: int, now: int)
    returns (d: Cluster, r: AppendResponse)
    requires Safe(c) && Leads(c, l, term) && f in c.nodes && f != l && !UnderWay(c.nodes[l], f, now)
    requires c.nodes[f].role.Follower? && c.nodes[f].currentTerm <= term
    requires b == Step(c, Heartbeat(l, f, now)) && Safe(b)
    ensures LeadsTo(b, d) && Safe(d) && OnlyAt(b, d, f)
    ensures CaughtUp(d.nodes[f], term, c.nodes[l].log.nextIndex, c.nodes[l].log.commitIndex)
    ensures AppendReply(r) in d.net && r.sourcePeerId == f && r.destinationPeerId == l && r.term == term
    ensures r.success && r.processed && r.peerNextIndex == d.nodes[f].log.nextIndex
  {
    hide Safe, LeadsTo, Step, HasPart, UnderWay, WellFormed, Collect, MessagesOf;
    var n, m := c.nodes[l], c.nodes[f];
    SafePair(c, l, f);
    BeatStep(c, l, f, now);
    CompleteIsWellFormed(m.log);
    CompleteIsWellFormed(n.log);
    assert n.log.commitIndex < n.log.nextIndex by { BelowNext(n.log); }
    var h, es := HeaderFor(n, f, c.nextId), MessagesOf(Collect(n.log.entries, NextIndex(n, f), n.log.nextIndex));
    CompleteClosed(n.log, NextIndex(n, f));
    hide Complete;
    if es == [] {
      var x := h.Chunk(0, true, None);
      d := KeepAliveArrives(b, f, x, now);
      r := AppendResponse(x.requestId, f, x.leaderId, x.term, true, d.nodes[f].log.nextIndex, true);
    } else {
      HasNone(m, h, es);
      d := RequestArrives(b, f, h, es, now);
      r := AppendResponse(h.requestId, f, h.leaderId, h.term, true, d.nodes[f].log.nextIndex, true);
    }
  }

  lemma BelowNext(s: LogState)
    requires WellFormed(s)
    ensures s.commitIndex < s.nextIndex
  {
  }

  // ---------- two rounds ----------

  /** The leader may send to all of `fs`, and they will listen. */
  ghost predicate InReach(c: Cluster, l: PeerId, term: int, fs: set<PeerId>, now: int) {
    && Leads(c, l, term) && fs <= c.nodes.Keys - {l}
    && forall f :: f in fs ==>
         c.nodes[f].role.Follower? && c.nodes[f].currentTerm <= term && !UnderWay(c.nodes[l], f, now)
  }

  /** Everything the leader stored in its own term is committed. */
  ghost predicate OwnTermCommitted(n: Node) {
    forall i :: i in n.log.entries && n.log.entries[i].term == n.currentTerm ==> i <= n.log.commitIndex
  }

  /** What a round with `fs` made of the cluster. */
  ghost predicate RoundDone(c: Cluster, d: Cluster, l: PeerId, term: int, fs: set<PeerId>) {
    && Leads(c, l, term) && Leads(d, l, term) && d.nodes.Keys == c.nodes.Keys && fs <= c.nodes.Keys - {l}
    && (forall p :: p in c.nodes && p != l && p !in fs ==> d.nodes[p] == c.nodes[p])
    && d.nodes[l].log.entries == c.nodes[l].log.entries && d.nodes[l].log.nextIndex == c.nodes[l].log.nextIndex
    && d.nodes[l].peers == c.nodes[l].peers && c.nodes[l].log.commitIndex <= d.nodes[l].log.commitIndex
    && d.nodes[l].role.sent == c.nodes[l].role.sent - fs
    && forall f :: f in fs ==>
         && CaughtUp(d.nodes[f], term, c.nodes[l].log.nextIndex, c.nodes[l].log.commitIndex)
         && f in d.nodes[l].matchIndexes && c.nodes[l].log.nextIndex - 1 <= d.nodes[l].matchIndexes[f]
  }

  lemma NoRound(c: Cluster, l: PeerId, term: int)
    requires Leads(c, l, term)
    ensures RoundDone(c, c, l, term, {})
  {
    assert c.nodes[l].role.sent - {} == c.nodes[l].role.sent;
  }

  lemma RoundExtends(c: Cluster, b: Cluster, d: Cluster, l: PeerId, term: int, fs: set<PeerId>, f: PeerId)
    requires RoundDone(c, b, l, term, fs) && f !in fs && f in c.nodes && f != l
    requires OnlyPair(b, d, l, f) && Leads(d, l, term) && Heard(b.nodes[l], d.nodes[l], f, d.nodes[f].log.nextIndex)
    requires CaughtUp(d.nodes[f], term, b.nodes[l].log.nextIndex, b.nodes[l].log.commitIndex)
    ensures RoundDone(c, d, l, term, fs + {f})
  {
    hide Eligible;
    assert c.nodes[l].role.sent - fs - {f} == c.nodes[l].role.sent - (fs + {f});
  }

  /** With a strict majority on record nothing of the own term is left uncommitted. */
  lemma MajorityCommits(c: Cluster, b: Cluster, d: Cluster, l: PeerId, term: int, fs: set<PeerId>, f: PeerId)
    requires RoundDone(c, d, l, term, fs) && f in fs && Safe(b) && Safe(d) && Leads(b, l, term)
    requires Heard(b.nodes[l], d.nodes[l], f, d.nodes[f].log.nextIndex) && |c.nodes.Keys| < (|fs| + 1) * 2
    requires b.nodes[l].log.nextIndex == c.nodes[l].log.nextIndex && b.nodes.Keys == c.nodes.Keys && f != l
    ensures OwnTermCommitted(d.nodes[l])
  {
    SafePair(b, l, f);
    SafeLog(d, l);
    var n, k := b.nodes[l], d.nodes[l];
    hide Safe, Complete, Eligible, FixedMembership;
    forall i | i in k.log.entries && k.log.entries[i].term == k.currentTerm && n.log.commitIndex < i
      ensures i <= k.log.commitIndex
    {
      assert 0 <= i < n.log.nextIndex by { WithinLog(k.log, i); }
      EnoughMatch(b, n, l, k.matchIndexes, fs, i);
      assert Eligible(n, k.matchIndexes, Min(n.log.nextIndex, d.nodes[f].log.nextIndex), i) by {
        IsEligible(n, k.matchIndexes, Min(n.log.nextIndex, d.nodes[f].log.nextIndex), i);
      }
    }
  }

  lemma WithinLog(s: LogState, i: int)
    requires Complete(s) && i in s.entries
    ensures 0 <= i < s.nextIndex
  {
  }

  lemma IsEligible(n: Node, matches: map<PeerId, int>, hi: int, i: int)
    requires n.log.commitIndex < i < hi && 0 <= i && i in n.log.entries && n.log.entries[i].term == n.currentTerm
    requires |n.peers| + 1 < (1 + |set p | p in n.peers && p in matches && i <= matches[p]|) * 2
    ensures Eligible(n, matches, hi, i)
  {
  }

  lemma EnoughMatch(b: Cluster, n: Node, l: PeerId, matches: map<PeerId, int>, fs: set<PeerId>, i: int)
    requires l in b.nodes && n.peers == b.nodes.Keys - {l} && fs <= n.peers && |b.nodes.Keys| < (|fs| + 1) * 2
    requires forall f :: f in fs ==> f in matches && i <= matches[f]
    ensures |n.peers| + 1 < (1 + |set p | p in n.peers && p in matches && i <= matches[p]|) * 2
  {
    var matching := set p | p in n.peers && p in matches && i <= matches[p];
    SubsetSize(fs, matching);
    assert b.nodes.Keys == n.peers + {l};
    assert |b.nodes.Keys| == |n.peers| + 1;
  }

  /** One round: the leader exchanges with every peer of `fs` in turn. */
  lemma {:induction false} Round(c: Cluster, l: PeerId, term: int, fs: set<PeerId>, now: int) returns (d: Cluster)
    requires Safe(c) && InReach(c, l, term, fs, now)
    ensures LeadsTo(c, d) && Safe(d) && RoundDone(c, d, l, term, fs)
    ensures |c.nodes.Keys| < (|fs| + 1) * 2 && fs != {} ==> OwnTermCommitted(d.nodes[l])
  {
    hide Safe, LeadsTo, OwnTermCommitted, CaughtUp;
    if fs == {} {
      d := c;
      OneStep(c, Tick(l, false));
      NoRound(c, l, term);
    } else {
      var f := Pick(fs);
      var b := Round(c, l, term, fs - {f}, now);
      assert b.nodes[f] == c.nodes[f] && !UnderWay(b.nodes[l], f, now);
      d := Exchange(b, l, f, term, now);
      Onward(c, b, d);
      RoundExtends(c, b, d, l, term, fs - {f}, f);
      assert fs - {f} + {f} == fs;
      if |c.nodes.Keys| < (|fs| + 1) * 2 {
        MajorityCommits(c, b, d, l, term, fs, f);
      }
    }
  }

  /** Commit progress, without expiry, in any state a run can reach: if a leader and the peers of `fs`, followers of
      its term or before, are a strict majority and no request to them is under way, some events lead to a state
      in which the leader still leads with the same log, and it and all of `fs` have committed, and emitted in
      order, every index the leader stored in its own term. */
  lemma TwoRoundsCommit(c: Cluster, l: PeerId, term: int, fs: set<PeerId>, now: int) returns (d: Cluster)
    requires Safe(c) && InReach(c, l, term, fs, now) && fs != {} && |c.nodes.Keys| < (|fs| + 1) * 2
    ensures LeadsTo(c, d) && Safe(d) && Leads(d, l, term) && d.nodes.Keys == c.nodes.Keys
    ensures d.nodes[l].log.entries == c.nodes[l].log.entries
    ensures forall i, p :: i in c.nodes[l].log.entries && c.nodes[l].log.entries[i].term == term && p in fs + {l} ==>
              i <= d.nodes[p].log.commitIndex && InOrder(d.nodes[p].commits, d.nodes[p].log.commitIndex)
  {
    hide Safe, LeadsTo;
    var b := Round(c, l, term, fs, now);
    d := Round(b, l, term, fs, now);
    Onward(c, b, d);
    forall p | p in fs + {l}
      ensures InOrder(d.nodes[p].commits, d.nodes[p].log.commitIndex)
    {
      SafeLog(d, p);
    }
  }

  // ---------- an election ----------

  /** Peer `v` will vote for `p`, if asked. */
  ghost predicate WillVote(c: Cluster, v: PeerId, p: PeerId) {
    && v in c.nodes && p in c.nodes && v != p && c.nodes[v].role.Follower? && c.nodes[v].votedFor.None?
    && c.nodes[v].currentTerm <= c.nodes[p].currentTerm
    && (c.nodes[v].log.commitIndex <= 0 || c.nodes[v].log.commitIndex <= c.nodes[p].log.nextIndex - 1)
  }

  /** The request a candidate sends to `v`. */
  function AskOf(n: Node, v: PeerId): VoteRequest {
    VoteRequest(n.currentTerm + 1, n.log.nextIndex - 1, n.currentTerm, v, n.id)
  }

  /** The peer as a candidate with the votes of `vs` and its own. */
  function Standing(n: Node, vs: set<PeerId>): Node {
    n.(leaderId := None, votedFor := None, role := Candidate(n.currentTerm + 1, {n.id} + vs, n.peers, true))
  }

  function Winner(n: Node): Node {
    n.(currentTerm := n.currentTerm + 1, leaderId := Some(n.id), votedFor := None, role := Leader(map[]))
  }

  /** Only `p` changed, and voters in `vs` may have recorded their vote. */
  ghost predicate Polled(c: Cluster, d: Cluster, p: PeerId, vs: set<PeerId>) {
    && d.nodes.Keys == c.nodes.Keys && FixedMembership(d) && p in c.nodes
    && (forall q :: q in c.nodes && q != p ==>
          d.nodes[q] == c.nodes[q] || (q in vs && d.nodes[q] == c.nodes[q].(votedFor := Some(p))))
    && (d.nodes[p] == Winner(c.nodes[p]) || d.nodes[p] == Standing(c.nodes[p], vs))
  }

  lemma Asking(c: Cluster, p: PeerId) returns (d: Cluster)
    requires FixedMembership(c) && p in c.nodes && c.nodes[p].role.Follower?
    requires c.nodes[p].peers != {} && !c.nodes[p].config.onlyFollower
    ensures LeadsTo(c, d) && Polled(c, d, p, {}) && d.nodes[p] == Standing(c.nodes[p], {})
    ensures forall v :: v in c.nodes && v != p ==> Vote(AskOf(c.nodes[p], v)) in d.net
  {
    hide LeadsTo, FollowerTick, CandidateTick;
    var n := c.nodes[p];
    var b := Step(c, Tick(p, true));
    OneStep(c, Tick(p, true));
    StepMembership(c, Tick(p, true));
    StandsExactly(n, true);
    var k := b.nodes[p];
    assert k == n.(leaderId := None, votedFor := None, role := Candidate(n.currentTerm + 1, {n.id}, {}, false));
    d := Step(b, Tick(p, false));
    OneStep(b, Tick(p, false));
    StepMembership(b, Tick(p, false));
    Onward(c, b, d);
    assert {n.id} + {} == {n.id} && {} + n.peers == n.peers;
    var out := CandidateTick(k, false).out;
    forall v | v in c.nodes && v != p
      ensures Vote(AskOf(n, v)) in out
    {
      Asked(k, v);
    }
    CandidacyAt(k);
  }

  lemma Asked(k: Node, v: PeerId)
    requires k.role.Candidate? && k.role.electionTerm == k.currentTerm + 1 && k.role.notified == {} && v in k.peers
    ensures Vote(AskOf(k, v)) in CandidateTick(k, false).out
  {
    assert v in k.peers - k.role.notified;
  }

  lemma CandidacyAt(k: Node)
    requires k.role.Candidate?
    ensures CandidateTick(k, false).node ==
            k.(role := Candidate(k.role.electionTerm, k.role.votes, k.role.notified + k.peers, true))
  {
  }

  /** Peer `v` gets the request and votes. */
  lemma VoteStep(b: Cluster, n: Node, v: PeerId)
    requires FixedMembership(b) && v in b.nodes && Vote(AskOf(n, v)) in b.net
    requires b.nodes[v].role.Follower? && b.nodes[v].votedFor.None? && b.nodes[v].currentTerm <= n.currentTerm
    requires b.nodes[v].log.commitIndex <= 0 || b.nodes[v].log.commitIndex <= n.log.nextIndex - 1
    ensures var a := Step(b, Deliver(Vote(AskOf(n, v)), 0));
      && LeadsTo(b, a) && FixedMembership(a) && b.net <= a.net
      && a.nodes == b.nodes[v := b.nodes[v].(votedFor := Some(n.id))]
      && VoteReply(VoteResponse(n.currentTerm + 1, true, n.id, v)) in a.net
  {
    var ask := Deliver(Vote(AskOf(n, v)), 0);
    OneStep(b, ask);
    StepMembership(b, ask);
    VoteGivenExactly(b, ask, v, AskOf(n, v));
    hide Step, LeadsTo, FixedMembership;
  }

  /** Its vote reaches the candidate. */
  lemma CountStep(a: Cluster, n: Node, vs: set<PeerId>, v: PeerId)
    requires FixedMembership(a) && n.id in a.nodes && a.nodes[n.id] == Standing(n, vs) && v in a.nodes && v != n.id
    requires VoteReply(VoteResponse(n.currentTerm + 1, true, n.id, v)) in a.net
    ensures var d := Step(a, Deliver(VoteReply(VoteResponse(n.currentTerm + 1, true, n.id, v)), 0));
      && LeadsTo(a, d) && FixedMembership(d) && a.net <= d.net
      && d.nodes == a.nodes[n.id := if |a.nodes.Keys| < |{n.id} + vs + {v}| * 2 then Winner(n)
                                    else Standing(n, vs + {v})]
  {
    var yes := VoteResponse(n.currentTerm + 1, true, n.id, v);
    var answer := Deliver(VoteReply(yes), 0);
    OneStep(a, answer);
    StepMembership(a, answer);
    WinsExactly(a, answer, n.id, yes);
    assert {n.id} + vs + {v} == {n.id} + (vs + {v});
    var d := Step(a, answer);
    assert d.nodes == a.nodes[n.id := d.nodes[n.id]];
    hide Step, LeadsTo, FixedMembership;
  }

  lemma PolledOneMore(c: Cluster, b: Cluster, a: Cluster, d: Cluster, p: PeerId, vs: set<PeerId>, v: PeerId)
    requires Polled(c, b, p, vs) && FixedMembership(d) && v in c.nodes && v != p && v !in vs
    requires a.nodes == b.nodes[v := b.nodes[v].(votedFor := Some(p))]
    requires p in d.nodes && d.nodes == a.nodes[p := d.nodes[p]]
    requires d.nodes[p] == Winner(c.nodes[p]) || d.nodes[p] == Standing(c.nodes[p], vs + {v})
    ensures Polled(c, d, p, vs + {v})
  {
    hide FixedMembership;
  }

  /** Peer `v` is asked and its answer delivered. */
  lemma Polls(c: Cluster, b: Cluster, p: PeerId, vs: set<PeerId>, v: PeerId) returns (d: Cluster)
    requires FixedMembership(c) && Polled(c, b, p, vs) && b.nodes[p] == Standing(c.nodes[p], vs)
    requires WillVote(c, v, p) && v !in vs && Vote(AskOf(c.nodes[p], v)) in b.net
    ensures LeadsTo(b, d) && Polled(c, d, p, vs + {v}) && b.net <= d.net
    ensures d.nodes[p] == if |c.nodes.Keys| < |{p} + vs + {v}| * 2 then Winner(c.nodes[p])
                          else Standing(c.nodes[p], vs + {v})
  {
    var n := c.nodes[p];
    assert n.id == p && b.nodes[v] == c.nodes[v];
    hide Step, LeadsTo, FixedMembership, Winner, Standing;
    VoteStep(b, n, v);
    var a := Step(b, Deliver(Vote(AskOf(n, v)), 0));
    CountStep(a, n, vs, v);
    d := Step(a, Deliver(VoteReply(VoteResponse(n.currentTerm + 1, true, n.id, v)), 0));
    Onward(b, a, d);
    PolledOneMore(c, b, a, d, p, vs, v);
  }

  /** All of `vs` are asked in turn until one vote decides. */
  lemma {:induction false} PollsAll(c: Cluster, b: Cluster, p: PeerId, vs: set<PeerId>) returns (d: Cluster)
    requires FixedMembership(c) && Polled(c, b, p, {}) && b.nodes[p] == Standing(c.nodes[p], {})
    requires forall v :: v in vs ==> WillVote(c, v, p) && Vote(AskOf(c.nodes[p], v)) in b.net
    ensures LeadsTo(b, d) && Polled(c, d, p, vs) && b.net <= d.net
    ensures vs != {} && |c.nodes.Keys| < (|vs| + 1) * 2 ==> d.nodes[p] == Winner(c.nodes[p])
  {
    hide LeadsTo, FixedMembership, Step, Winner, Standing, AskOf;
    if vs == {} {
      d := b;
      OneStep(b, Tick(p, false));
    } else {
      var v := Pick(vs);
      assert v != p by { assert WillVote(c, v, p); }
      var a := PollsAll(c, b, p, vs - {v});
      assert vs - {v} + {v} == vs;
      if a.nodes[p] == Winner(c.nodes[p]) {
        d := a;
        StillPolled(c, a, p, vs - {v}, vs);
      } else {
        d := Polls(c, a, p, vs - {v}, v);
        Onward(b, a, d);
        VotesCounted(c, vs, v, p);
      }
    }
  }

  lemma VotesCounted(c: Cluster, vs: set<PeerId>, v: PeerId, p: PeerId)
    requires v in vs && forall q :: q in vs ==> WillVote(c, q, p)
    ensures |{p} + (vs - {v}) + {v}| == |vs| + 1
  {
    assert p !in vs;
    assert {p} + (vs - {v}) + {v} == vs + {p};
  }

  lemma StillPolled(c: Cluster, d: Cluster, p: PeerId, vs: set<PeerId>, ws: set<PeerId>)
    requires Polled(c, d, p, vs) && vs <= ws && d.nodes[p] == Winner(c.nodes[p])
    ensures Polled(c, d, p, ws)
  {
  }

  /** Election progress: a follower that may lead, whose time is up, and that with the peers of `vs`, all of which
      would vote for it, is a strict majority, can become leader of the next term with its log unchanged, and no
      other peer's log, term or role changes. */
  lemma MajorityElects(c: Cluster, p: PeerId, vs: set<PeerId>) returns (d: Cluster)
    requires FixedMembership(c) && p in c.nodes && c.nodes[p].role.Follower? && !c.nodes[p].config.onlyFollower
    requires vs != {} && |c.nodes.Keys| < (|vs| + 1) * 2 && forall v :: v in vs ==> WillVote(c, v, p)
    ensures LeadsTo(c, d) && FixedMembership(d) && d.nodes.Keys == c.nodes.Keys
    ensures d.nodes[p] == Winner(c.nodes[p]) && Leads(d, p, c.nodes[p].currentTerm + 1)
    ensures forall q :: q in c.nodes && q != p ==> d.nodes[q] == c.nodes[q].(votedFor := d.nodes[q].votedFor)
  {
    hide LeadsTo, Step, Standing, AskOf;
    var v := Pick(vs);
    assert v in c.nodes[p].peers by { assert WillVote(c, v, p); }
    assert forall q :: q in vs ==> q in c.nodes && q != p by { assert forall q :: q in vs ==> WillVote(c, q, p); }
    hide WillVote, FixedMembership;
    var b := Asking(c, p);
    d := PollsAll(c, b, p, vs);
    Onward(c, b, d);
  }

  // ---------- a new cluster ----------

  lemma {:induction false} AfterSafe(c: Cluster, es: seq<Event>, j: nat)
    requires Safe(c) && j <= |es|
    ensures Safe(After(c, es, j))
  {
    if j != 0 {
      AfterSafe(c, es, j - 1);
      StepSafe(After(c, es, j - 1), es[j - 1]);
    }
  }

  lemma SafeOnward(c: Cluster, d: Cluster)
    requires Safe(c) && LeadsTo(c, d)
    ensures Safe(d)
  {
    var es :| After(c, es, |es|) == d;
    AfterSafe(c, es, |es|);
  }

  lemma FreshIsSafe(c: Cluster)
    requires Fresh(c) && NeverExpires(c)
    ensures Safe(c)
  {
    assert SafeInv(c, History(map[], map[]));
  }

  /** The leader takes a first message. */
  lemma Proposes(c: Cluster, p: PeerId, term: int, m: Message) returns (d: Cluster)
    requires Safe(c) && Leads(c, p, term) && c.nodes[p].log == EMPTY_LOG
    ensures LeadsTo(c, d) && Safe(d) && Leads(d, p, term) && d.nodes == c.nodes[p := d.nodes[p]]
    ensures d.nodes[p].role == c.nodes[p].role && d.nodes[p].log.entries == map[0 := LogEntry(0, term, m, 0)]
  {
    hide Safe, LeadsTo;
    d := Step(c, Propose(p, m, 0));
    StepSafe(c, Propose(p, m, 0));
    FirstProposal(c, p, term, m);
    hide Step;
  }

  lemma FirstProposal(c: Cluster, p: PeerId, term: int, m: Message)
    requires Leads(c, p, term) && c.nodes[p].log == EMPTY_LOG
    ensures var d := Step(c, Propose(p, m, 0));
      && d.nodes == c.nodes[p := c.nodes[p].(log := d.nodes[p].log)]
      && d.nodes[p].log.entries == map[0 := LogEntry(0, term, m, 0)]
  {
    assert Step(c, Propose(p, m, 0)).nodes[p] == SubmitTo(c.nodes[p], m, 0);
  }

  /** Any new cluster of two peers or more can do its work, whatever its size: any peer that may lead can be elected
      and get any message committed by all. */
  lemma NewClusterCommits(c: Cluster, p: PeerId, m: Message) returns (d: Cluster)
    requires Fresh(c) && NeverExpires(c) && 2 <= |c.nodes.Keys| && p in c.nodes && !c.nodes[p].config.onlyFollower
    ensures LeadsTo(c, d) && Leads(d, p, 1) && d.nodes.Keys == c.nodes.Keys
    ensures d.nodes[p].log.entries == map[0 := LogEntry(0, 1, m, 0)]
    ensures forall q :: q in d.nodes ==>
              0 <= d.nodes[q].log.commitIndex && InOrder(d.nodes[q].commits, d.nodes[q].log.commitIndex)
  {
    hide LeadsTo, Safe, NeverExpires, InOrder, FixedMembership, InReach;
    var others := c.nodes.Keys - {p};
    assert |others| == |c.nodes.Keys| - 1;
    FreshIsSafe(c);
    var b := NewLeader(c, p, others);
    var a := Proposes(b, p, 1, m);
    StillInReach(b, a, p, others);
    assert 0 in a.nodes[p].log.entries;
    d := TwoRoundsCommit(a, p, 1, others, 0);
    Onward(c, b, a);
    Onward(c, a, d);
    assert others + {p} == d.nodes.Keys;
  }

  /** A new cluster elects `p` by all the others' votes. */
  lemma NewLeader(c: Cluster, p: PeerId, others: set<PeerId>) returns (d: Cluster)
    requires Fresh(c) && Safe(c) && p in c.nodes && !c.nodes[p].config.onlyFollower
    requires others == c.nodes.Keys - {p} && others != {} && |others| == |c.nodes.Keys| - 1
    ensures LeadsTo(c, d) && Safe(d) && d.nodes.Keys == c.nodes.Keys && Leads(d, p, 1)
    ensures d.nodes[p].log == EMPTY_LOG && InReach(d, p, 1, others, 0)
  {
    hide LeadsTo, Safe;
    assert forall v :: v in others ==> WillVote(c, v, p);
    d := MajorityElects(c, p, others);
    SafeOnward(c, d);
    hide FixedMembership;
  }

  lemma StillInReach(b: Cluster, a: Cluster, p: PeerId, others: set<PeerId>)
    requires InReach(b, p, 1, others, 0) && Leads(a, p, 1)
    requires a.nodes == b.nodes[p := a.nodes[p]] && a.nodes[p].role == b.nodes[p].role
    ensures InReach(a, p, 1, others, 0)
  {
  }
}
