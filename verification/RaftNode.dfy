/**
 One peer on values: what each listener and each timer tick of the follower, candidate and
 leader states does to the peer, and the packets it sends.  The class `RaftPeer` does the same
 in place and is proved equal to these functions.
 */
module RaftNode {
  import opened Messages
  import opened RaftLogs
  import opened AppendEntriesRequests

  datatype Config = Config(onlyFollower: bool, expirationTimeInMs: int)

  /** One `commit` event. */
  datatype Commit = Commit(index: int, message: Message)

  datatype SentRequest = SentRequest(requestId: RequestId, created: int)

  datatype Role =
    | Follower(pending: map<RequestId, Assembler>)
    | Candidate(electionTerm: int, votes: set<PeerId>, notified: set<PeerId>, started: bool)
    | Leader(sent: map<PeerId, SentRequest>)

  datatype Node = Node(
    id: PeerId,
    peers: set<PeerId>,
    config: Config,
    currentTerm: int,
    votedFor: Option<PeerId>,
    leaderId: Option<PeerId>,
    nextIndexes: map<PeerId, int>,
    matchIndexes: map<PeerId, int>,
    log: LogState,
    role: Role,
    commits: seq<Commit>)

  datatype Effect = Effect(node: Node, out: set<Packet>)

  const SENT_REQUEST_TIMEOUT := 30000

  // ---------- committing ----------

  function CommitsOf(es: seq<LogEntry>): (r: seq<Commit>)
    ensures |r| == |es|
    ensures forall i :: 0 <= i < |r| ==> r[i] == Commit(es[i].index, es[i].entry)
  {
    seq(|es|, i requires 0 <= i < |es| => Commit(es[i].index, es[i].entry))
  }

  function CommitLog(n: Node, upTo: int, now: int): Node {
    n.(log := CommitUntil(n.log, upTo, n.config.expirationTimeInMs, now),
       commits := n.commits + CommitsOf(NewlyCommitted(n.log, upTo)))
  }

  function UpdateCommitIndex(n: Node, leaderCommit: int, now: int): Node {
    if leaderCommit <= n.log.commitIndex || Min(n.log.nextIndex - 1, leaderCommit) <= n.log.commitIndex then n
    else CommitLog(n, Min(n.log.nextIndex - 1, leaderCommit), now)
  }

  // ---------- follower ----------

  function Indexes(lo: int, n: nat): (r: set<int>)
    ensures forall k :: k in r <==> lo <= k < lo + n
  {
    if n == 0 then {} else Indexes(lo, n - 1) + {lo + n - 1}
  }

  /** The log after the entries `es` were applied from index `start` on: an entry already stamped
      with the follower's term stays, every other covered index holds the request's entry. */
  function Applied(s: LogState, start: int, es: seq<Message>, term: int, now: int): LogState {
    s.(entries := map k | k in s.entries.Keys + Indexes(start, |es|) ::
                    if start <= k < start + |es| && !(k in s.entries && s.entries[k].term == term)
                    then LogEntry(k, term, es[k - start], now)
                    else s.entries[k],
       nextIndex := Max(s.nextIndex, start + |es|))
  }

  /** A follower too far behind drops its log and takes the request's first index as committed. */
  function GapReset(s: LogState, start: int): LogState {
    if s.nextIndex < start then Reset(Max(0, start)) else s
  }

  function Adopt(n: Node, c: AppendChunk): Node {
    if n.currentTerm < c.term
    then n.(currentTerm := c.term, votedFor := None, leaderId := Some(c.leaderId))
    else n.(leaderId := Some(c.leaderId))
  }

  predicate IsKeepAlive(c: AppendChunk) {
    c.entry.None? && c.sequence == 0
  }

  function PendingFor(n: Node, id: RequestId): Assembler
    requires n.role.Follower?
  {
    if id in n.role.pending then n.role.pending[id] else NewAssembler(id)
  }

  function Install(n: Node, a: Assembler, c: AppendChunk, now: int): Effect {
    var start := a.leaderNextIndex - |a.entriesList|;
    var log := Applied(GapReset(n.log, start), start, a.entriesList, n.currentTerm, now);
    var m := UpdateCommitIndex(n.(log := log), c.leaderCommit, now);
    Effect(m, {AppendReply(c.Response(true, m.log.nextIndex, true))})
  }

  function FollowerOnEntryChunk(n: Node, c: AppendChunk, now: int): Effect
    requires n.role.Follower?
  {
    var before := PendingFor(n, c.requestId);
    var a := AddChunk(before, c);
    if Throws(before, c) then
      Effect(n.(role := Follower(n.role.pending[c.requestId := a])), {})
    else if !a.ready then
      Effect(n.(role := Follower(n.role.pending[c.requestId := a])), {AppendReply(c.Response(true, -1, false))})
    else
      Install(n.(role := Follower(n.role.pending - {c.requestId})), a, c, now)
  }

  function FollowerOnChunk(n: Node, c: AppendChunk, now: int): Effect
    requires n.role.Follower?
  {
    if c.term < n.currentTerm then
      Effect(n, {AppendReply(c.Response(false, -1, false))})
    else if !IsKeepAlive(c) then
      FollowerOnEntryChunk(Adopt(n, c), c, now)
    else if !c.lastMessage then
      Effect(Adopt(n, c), {AppendReply(c.Response(false, -1, true))})
    else
      var m := UpdateCommitIndex(Adopt(n, c), c.leaderCommit, now);
      Effect(m, {AppendReply(c.Response(true, m.log.nextIndex, true))})
  }

  /** When a follower grants a vote. */
  predicate Grants(n: Node, r: VoteRequest) {
    && n.currentTerm < r.term
    && (0 < n.log.commitIndex ==> n.log.commitIndex <= r.lastLogIndex)
    && (n.votedFor == None || n.votedFor == Some(r.candidateId))
  }

  function FollowerOnVote(n: Node, r: VoteRequest): Effect {
    Effect(if Grants(n, r) then n.(votedFor := Some(r.candidateId)) else n, {VoteReply(r.Response(Grants(n, r)))})
  }

  function FollowerTick(n: Node, timedOut: bool): Node {
    if !timedOut then n
    else if n.peers == {} || n.config.onlyFollower then n.(leaderId := None, votedFor := None)
    else n.(leaderId := None, votedFor := None, role := Candidate(n.currentTerm + 1, {n.id}, {}, false))
  }

  // ---------- candidate ----------

  function Follow(n: Node): Node {
    n.(role := Follower(map[]))
  }

  function CandidateOnChunk(n: Node, c: AppendChunk): Node
    requires n.role.Candidate?
  {
    if c.term < n.role.electionTerm then n else Follow(n)
  }

  function Lead(n: Node): Node
    requires n.role.Candidate?
  {
    if n.role.electionTerm != n.currentTerm + 1 then Follow(n)
    else n.(currentTerm := n.role.electionTerm, role := Leader(map[]), leaderId := Some(n.id))
  }

  function CandidateOnVoteReply(n: Node, r: VoteResponse): Node
    requires n.role.Candidate?
  {
    if r.sourcePeerId !in n.peers then n
    else if n.role.electionTerm < r.term then Follow(n)
    else if r.term < n.role.electionTerm || !r.voteGranted then n
    else
      var m := n.(role := n.role.(votes := n.role.votes + {r.sourcePeerId}));
      if |n.peers| + 1 < |m.role.votes| * 2 then Lead(m) else m
  }

  function RequestsTo(n: Node, targets: set<PeerId>): set<Packet>
    requires n.role.Candidate?
  {
    set p | p in targets :: Vote(VoteRequest(n.role.electionTerm, n.log.nextIndex - 1, n.currentTerm, p, n.id))
  }

  /** The first tick only sends the vote requests and starts the election timer. */
  function CandidateTick(n: Node, timedOut: bool): Effect
    requires n.role.Candidate?
  {
    var m := n.(role := n.role.(notified := n.role.notified + n.peers, started := true));
    Effect(if n.role.started && timedOut then Follow(m) else m, RequestsTo(n, n.peers - n.role.notified))
  }

  // ---------- leader ----------

  function StepDown(n: Node): Node {
    n.(leaderId := None, role := Follower(map[]))
  }

  /** Whether a chunk makes a leader give up: a newer term, or the same term and a greater id. */
  predicate Yields(n: Node, c: AppendChunk) {
    && c.leaderId != n.id
    && c.leaderId in n.peers
    && (n.currentTerm < c.term || (n.currentTerm == c.term && n.id.rank < c.leaderId.rank))
  }

  function LeaderOnChunk(n: Node, c: AppendChunk): Node {
    if Yields(n, c) then StepDown(n) else n
  }

  function MatchIndex(n: Node, p: PeerId): int {
    if p in n.matchIndexes then n.matchIndexes[p] else -1
  }

  function Matching(n: Node, i: int): set<PeerId> {
    set p | p in n.peers && i <= MatchIndex(n, p)
  }

  /** An entry of the leader's own term that a strict majority, the leader included, matches. */
  predicate Committable(n: Node, i: int) {
    && i in n.log.entries
    && n.log.entries[i].term == n.currentTerm
    && |n.peers| + 1 < (1 + |Matching(n, i)|) * 2
  }

  /** The greatest committable index above the commit index and below `hi`, -1 if there is none. */
  function BestCommit(n: Node, hi: int): int
    decreases hi - n.log.commitIndex
  {
    if hi <= n.log.commitIndex + 1 || hi <= 0 then -1
    else if Committable(n, hi - 1) then hi - 1
    else BestCommit(n, hi - 1)
  }

  function RecordReply(n: Node, r: AppendResponse): Node
    requires n.role.Leader?
  {
    n.(role := Leader(n.role.sent - {r.sourcePeerId}),
       nextIndexes := n.nextIndexes[r.sourcePeerId := r.peerNextIndex],
       matchIndexes := n.matchIndexes[r.sourcePeerId := r.peerNextIndex - 1])
  }

  function LeaderOnReply(n: Node, r: AppendResponse, now: int): Node
    requires n.role.Leader?
  {
    if r.term < n.currentTerm then n
    else if n.currentTerm < r.term then StepDown(n)
    else if !r.processed then n
    else if !r.success then n.(role := Leader(n.role.sent - {r.sourcePeerId}))
    else
      var m := RecordReply(n, r);
      var target := BestCommit(m, Min(m.log.nextIndex, r.peerNextIndex));
      if 0 <= target then CommitLog(m, target, now) else m
  }

  /** A reply counts whether or not a request for entries is under way: the answer to a keep-alive sets the
      next and the match index of its sender. */
  lemma ReplyCountsWithoutRequest(n: Node, r: AppendResponse, now: int)
    requires n.role.Leader? && r.term == n.currentTerm && r.success && r.processed
    requires r.sourcePeerId !in n.role.sent
    ensures var m := LeaderOnReply(n, r, now);
      && m.nextIndexes == n.nextIndexes[r.sourcePeerId := r.peerNextIndex]
      && m.matchIndexes == n.matchIndexes[r.sourcePeerId := r.peerNextIndex - 1]
  {
  }

  function NextIndex(n: Node, p: PeerId): int {
    if p in n.nextIndexes then n.nextIndexes[p] else 0
  }

  function HeaderFor(n: Node, p: PeerId, id: RequestId): Header {
    var prev := NextIndex(n, p) - 1;
    Header(id, p, n.id, n.log.commitIndex, n.log.nextIndex, prev,
           if 0 <= prev && prev in n.log.entries then n.log.entries[prev].term else -1,
           n.currentTerm)
  }

  function MessagesOf(es: seq<LogEntry>): (r: seq<Message>)
    ensures |r| == |es|
    ensures forall i :: 0 <= i < |r| ==> r[i] == es[i].entry
  {
    seq(|es|, i requires 0 <= i < |es| => es[i].entry)
  }

  /** Whether an unanswered request to `p`, not older than the threshold, is under way. */
  predicate Waiting(n: Node, p: PeerId, now: int)
    requires n.role.Leader?
  {
    p in n.role.sent && now - SENT_REQUEST_TIMEOUT <= n.role.sent[p].created
  }

  function ChunksOf(h: Header, es: seq<Message>): set<Packet> {
    set i | i in Range(|es|) :: Append(h.EntryChunk(es, i))
  }

  /** What one heartbeat of a leader does for one remote peer. */
  function LeaderSend(n: Node, p: PeerId, now: int, id: RequestId): Effect
    requires n.role.Leader?
  {
    var es := MessagesOf(Collect(n.log.entries, NextIndex(n, p), n.log.nextIndex));
    var h := HeaderFor(n, p, id);
    if Waiting(n, p, now) then
      Effect(n, {Append(h.Chunk(0, true, None))})
    else if es == [] then
      Effect(n.(role := Leader(n.role.sent - {p})), {Append(h.Chunk(0, true, None))})
    else
      Effect(n.(role := Leader(n.role.sent[p := SentRequest(id, now)])), ChunksOf(h, es))
  }

  function LeaderTick(n: Node): Node {
    if n.peers == {} then StepDown(n) else n
  }

  /** Submitting reaches the log of a leader only. */
  function SubmitTo(n: Node, m: Message, now: int): Node {
    if n.role.Leader? then n.(log := Submit(n.log, n.currentTerm, m, now)) else n
  }

  // ---------- what the apply loop achieves ----------

  /** One turn of the apply loop; `next` is the next index before the loop. */
  function ApplyOne(s: LogState, next: int, index: int, m: Message, term: int, now: int): LogState {
    if index < next then CompareAndOverride(s, index, term, m, now) else CompareAndAdd(s, index, term, m, now)
  }

  /** One turn of the loop extends what is applied by one entry; an add is never refused. */
  lemma ApplyStep(s: LogState, start: int, es: seq<Message>, i: nat, term: int, now: int)
    requires WellFormed(s) && start <= s.nextIndex && i < |es|
    ensures var t := Applied(s, start, es[..i], term, now);
      && ApplyOne(t, s.nextIndex, start + i, es[i], term, now) == Applied(s, start, es[..i + 1], term, now)
      && (s.nextIndex <= start + i ==> t.nextIndex == start + i)
  {
    var t, u := Applied(s, start, es[..i], term, now), Applied(s, start, es[..i + 1], term, now);
    var k := start + i;
    assert es[..i + 1][i] == es[i];
    assert forall j :: 0 <= j < i ==> es[..i + 1][j] == es[..i][j];
    assert k in t.entries <==> k in s.entries;
    if k < s.nextIndex {
      if k in s.entries && s.entries[k].term == term {
        assert u.entries == t.entries;
      } else {
        assert u.entries == t.entries[k := LogEntry(k, term, es[i], now)];
      }
    } else {
      assert u.entries == t.entries[k := LogEntry(k, term, es[i], now)];
    }
  }

  lemma ApplyNothing(s: LogState, start: int, term: int, now: int)
    requires start <= s.nextIndex
    ensures Applied(s, start, [], term, now) == s
  {
    assert Applied(s, start, [], term, now).entries == s.entries;
  }

  /** The apply loop on any log and any request: the log stays well formed, the next index becomes the
      greater of the old one and the leader's, each covered index holds the request's entry or one
      already stamped with the current term, every other index is untouched, and nothing is deleted. */
  lemma ApplyLoopTotal(s: LogState, start: int, es: seq<Message>, term: int, now: int)
    requires WellFormed(s) && start <= s.nextIndex
    ensures var t := Applied(s, start, es, term, now);
      && WellFormed(t)
      && t.nextIndex == Max(s.nextIndex, start + |es|)
      && t.commitIndex == s.commitIndex && t.firstIndex == s.firstIndex
      && (forall k :: start <= k < start + |es| ==>
            k in t.entries && (t.entries[k].entry == es[k - start] || (k in s.entries && t.entries[k] == s.entries[k]))
            && t.entries[k].term == term)
      && (forall k :: k in s.entries && !(start <= k < start + |es|) ==> k in t.entries && t.entries[k] == s.entries[k])
      && (forall k :: k in t.entries ==> k in s.entries || start <= k < start + |es|)
  {
  }

  /** After the gap reset every request starts at or below the next index. */
  lemma GapResetKeeps(s: LogState, start: int)
    requires WellFormed(s)
    ensures WellFormed(GapReset(s, start)) && start <= GapReset(s, start).nextIndex
    ensures s.nextIndex <= GapReset(s, start).nextIndex
  {
  }

  lemma {:induction false} BestCommitIsGreatest(n: Node, hi: int)
    ensures var b := BestCommit(n, hi);
      && (b == -1 || (n.log.commitIndex < b < hi && 0 <= b && Committable(n, b)))
      && (forall i :: n.log.commitIndex < i < hi && 0 <= i && Committable(n, i) ==> i <= b)
    decreases hi - n.log.commitIndex
  {
    if n.log.commitIndex + 1 < hi && 0 < hi && !Committable(n, hi - 1) {
      BestCommitIsGreatest(n, hi - 1);
    }
  }
}
