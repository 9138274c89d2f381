/**
 The in-memory log.  `LogState` is its abstract value; the class `MemoryStoredRaftLogs`
 performs the updates in place, loop by loop, and is proved equal to the functions on
 `LogState` given here.
 */
module RaftLogs {
  import opened Messages

  datatype LogEntry = LogEntry(index: int, term: int, entry: Message, timestamp: int)

  datatype LogState = LogState(
    entries: map<int, LogEntry>,
    firstIndex: int,
    nextIndex: int,
    commitIndex: int)

  const EMPTY_LOG := LogState(map[], 0, 0, -1)

  function Min(a: int, b: int): int { if a <= b then a else b }

  function Max(a: int, b: int): int { if a <= b then b else a }

  /** What every operation keeps.  A stored entry may lie below `firstIndex` (an override puts it
      there), and the entry at `firstIndex` itself may be missing (after a reset). */
  ghost predicate WellFormed(s: LogState) {
    && s.commitIndex < s.nextIndex
    && s.firstIndex <= s.commitIndex + 1
    && (forall k :: k in s.entries ==> k < s.nextIndex && s.entries[k].index == k)
    && (forall k :: s.firstIndex < k < s.nextIndex ==> k in s.entries)
    && (forall k :: s.commitIndex < k < s.nextIndex ==> k in s.entries)
  }

  /** No entry is stored below `firstIndex`. */
  ghost predicate NoStragglers(s: LogState) {
    forall k :: k in s.entries ==> s.firstIndex <= k
  }

  // ---------- the operations on values ----------

  function Submit(s: LogState, term: int, m: Message, now: int): LogState {
    s.(entries := s.entries[s.nextIndex := LogEntry(s.nextIndex, term, m, now)], nextIndex := s.nextIndex + 1)
  }

  function CompareAndAdd(s: LogState, expectedNextIndex: int, term: int, m: Message, now: int): LogState {
    if s.nextIndex != expectedNextIndex then s else Submit(s, term, m, now)
  }

  /** An entry that already carries the given term is kept. */
  predicate Overrides(s: LogState, index: int, term: int) {
    index < s.nextIndex && (index in s.entries ==> s.entries[index].term != term)
  }

  function CompareAndOverride(s: LogState, index: int, term: int, m: Message, now: int): LogState {
    if Overrides(s, index, term) then s.(entries := s.entries[index := LogEntry(index, term, m, now)]) else s
  }

  function Reset(newCommitIndex: int): LogState {
    LogState(map[], newCommitIndex, newCommitIndex + 1, newCommitIndex)
  }

  /** The stored entries with an index in [lo, hi), in index order; missing ones are skipped. */
  function Collect(entries: map<int, LogEntry>, lo: int, hi: int): seq<LogEntry>
    decreases hi - lo
  {
    if hi <= lo then []
    else Collect(entries, lo, hi - 1) + (if hi - 1 in entries then [entries[hi - 1]] else [])
  }

  /** The index a commit up to `n` ends at. */
  function CommitTarget(s: LogState, n: int): int {
    if n <= s.commitIndex then s.commitIndex else Max(s.commitIndex, Min(n, s.nextIndex - 1))
  }

  /** The entries a commit up to `n` hands out. */
  function NewlyCommitted(s: LogState, n: int): seq<LogEntry> {
    Collect(s.entries, s.commitIndex + 1, CommitTarget(s, n) + 1)
  }

  /** The first index from `k` on, below `hi`, whose entry is younger than the threshold; `hi` if there is none. */
  function FirstFresh(entries: map<int, LogEntry>, k: int, hi: int, threshold: int): int
    decreases hi - k
  {
    if hi <= k || (k in entries && threshold <= entries[k].timestamp) then k
    else FirstFresh(entries, k + 1, hi, threshold)
  }

  function ScanStart(s: LogState): int {
    if s.firstIndex < s.commitIndex && s.firstIndex !in s.entries then s.firstIndex + 1 else s.firstIndex
  }

  /** The last index of the leading run of expired entries below the commit index, -1 if there is none. */
  function ExpiredIndex(s: LogState, expirationTimeInMs: int, now: int): int {
    var x := FirstFresh(s.entries, ScanStart(s), s.commitIndex, now - expirationTimeInMs);
    if ScanStart(s) < x then x - 1 else -1
  }

  function Without(entries: map<int, LogEntry>, lo: int, hi: int): map<int, LogEntry> {
    map k | k in entries && !(lo <= k < hi) :: entries[k]
  }

  /** The last expired entry itself stays; everything before it goes. */
  function Expire(s: LogState, expirationTimeInMs: int, now: int): LogState {
    if expirationTimeInMs < 1 then s
    else
      var e := ExpiredIndex(s, expirationTimeInMs, now);
      if e < 0 then s.(firstIndex := ScanStart(s))
      else s.(entries := Without(s.entries, ScanStart(s), e), firstIndex := e)
  }

  function CommitUntil(s: LogState, n: int, expirationTimeInMs: int, now: int): LogState {
    if CommitTarget(s, n) == s.commitIndex then s
    else Expire(s.(commitIndex := CommitTarget(s, n)), expirationTimeInMs, now)
  }

  // ---------- what the operations keep ----------

  lemma SubmitKeeps(s: LogState, term: int, m: Message, now: int)
    requires WellFormed(s)
    ensures WellFormed(Submit(s, term, m, now))
    ensures NoStragglers(s) ==> NoStragglers(Submit(s, term, m, now))
  {
  }

  /** Between `s` and `t` nothing but the entry at `k` changed. */
  ghost predicate OnlyEntryChanged(s: LogState, t: LogState, k: int) {
    && t.commitIndex == s.commitIndex && t.firstIndex == s.firstIndex
    && forall i :: i != k ==> (i in t.entries <==> i in s.entries) && (i in s.entries ==> t.entries[i] == s.entries[i])
  }

  /** An entry is added only at the next index, overridden only below it and only by another term, a missing one
      filled in; a reset leaves no entry and takes its index as committed. */
  lemma WritesExactly(s: LogState, index: int, term: int, m: Message, now: int)
    ensures var t := CompareAndAdd(s, index, term, m, now);
      if index == s.nextIndex then
        && t.nextIndex == index + 1 && OnlyEntryChanged(s, t, index)
        && index in t.entries && t.entries[index] == LogEntry(index, term, m, now)
      else t == s
    ensures var t := CompareAndOverride(s, index, term, m, now);
      if index < s.nextIndex && (index !in s.entries || s.entries[index].term != term) then
        && t.nextIndex == s.nextIndex && OnlyEntryChanged(s, t, index)
        && index in t.entries && t.entries[index] == LogEntry(index, term, m, now)
      else t == s
    ensures var t := Reset(index);
      t.entries == map[] && t.commitIndex == t.firstIndex == index && t.nextIndex == index + 1
  {
  }

  lemma {:induction false} FirstFreshBounds(entries: map<int, LogEntry>, k: int, hi: int, threshold: int)
    ensures var x := FirstFresh(entries, k, hi, threshold);
      && k <= x
      && (k <= hi ==> x <= hi)
      && (forall j :: k <= j < x && j in entries ==> entries[j].timestamp < threshold)
      && (x < hi ==> x in entries && threshold <= entries[x].timestamp)
    decreases hi - k
  {
    if !(hi <= k || (k in entries && threshold <= entries[k].timestamp)) {
      FirstFreshBounds(entries, k + 1, hi, threshold);
    }
  }

  /** Expiry removes only entries below the commit index that are older than the threshold, changes
      no entry it keeps, and keeps the log well formed. */
  lemma ExpireKeeps(s: LogState, expirationTimeInMs: int, now: int)
    requires WellFormed(s)
    ensures var t := Expire(s, expirationTimeInMs, now);
      && WellFormed(t)
      && t.nextIndex == s.nextIndex && t.commitIndex == s.commitIndex && s.firstIndex <= t.firstIndex
      && (forall k :: k in t.entries ==> k in s.entries && t.entries[k] == s.entries[k])
      && (forall k :: k in s.entries && k !in t.entries ==>
            k < s.commitIndex && s.entries[k].timestamp < now - expirationTimeInMs)
      && (NoStragglers(s) ==> NoStragglers(t))
      && (expirationTimeInMs < 1 ==> t == s)
  {
    FirstFreshBounds(s.entries, ScanStart(s), s.commitIndex, now - expirationTimeInMs);
  }

  /** Every stored entry from the first index up to `j` is older than the threshold. */
  ghost predicate AllOlder(s: LogState, j: int, threshold: int) {
    forall i :: i in s.entries && s.firstIndex <= i <= j ==> s.entries[i].timestamp < threshold
  }

  /** An entry goes if and only if all entries from the first index up to some later one below the commit index
      are too old.  So the last of the leading old entries stays, as do entries below the first index.  The log then
      starts at the first entry kept, and a missing first entry is skipped. */
  ghost predicate ExpiredTo(s: LogState, t: LogState, threshold: int) {
    && (forall k :: k in t.entries ==> k in s.entries && t.entries[k] == s.entries[k])
    && (forall k :: k in s.entries ==>
          (k !in t.entries <==> s.firstIndex <= k && exists j :: k < j < s.commitIndex && AllOlder(s, j, threshold)))
    && (forall k :: k in t.entries && s.firstIndex <= k ==> t.firstIndex <= k)
    && (s.firstIndex < t.firstIndex ==> t.firstIndex in t.entries || t.firstIndex == s.commitIndex)
    && (s.firstIndex < s.commitIndex && s.firstIndex !in s.entries ==> s.firstIndex < t.firstIndex)
  }

  /** A commit that moves the commit index expires by the new one; a commit that does not leaves the log alone. */
  lemma CommitExpiresExactly(s: LogState, n: int, expirationTimeInMs: int, now: int)
    requires WellFormed(s) && 0 <= s.firstIndex && 1 <= expirationTimeInMs
    ensures var t, target := CommitUntil(s, n, expirationTimeInMs, now), Max(s.commitIndex, Min(n, s.nextIndex - 1));
      && (target == s.commitIndex ==> t == s)
      && (s.commitIndex < target ==> ExpiredTo(s.(commitIndex := target), t, now - expirationTimeInMs))
  {
    ExpiresExactly(s.(commitIndex := CommitTarget(s, n)), expirationTimeInMs, now);
    hide Expire, ExpiredTo;
  }

  /** What exactly expires. */
  lemma ExpiresExactly(s: LogState, expirationTimeInMs: int, now: int)
    requires WellFormed(s) && 0 <= s.firstIndex && 1 <= expirationTimeInMs
    ensures var t, threshold := Expire(s, expirationTimeInMs, now), now - expirationTimeInMs;
      ExpiredTo(s, t, threshold)
  {
    var threshold := now - expirationTimeInMs;
    FirstFreshBounds(s.entries, ScanStart(s), s.commitIndex, threshold);
    var t := Expire(s, expirationTimeInMs, now);
    var x := FirstFresh(s.entries, ScanStart(s), s.commitIndex, threshold);
    forall k | k in s.entries && s.firstIndex <= k < x - 1 && ScanStart(s) < x
      ensures k < x - 1 < s.commitIndex && AllOlder(s, x - 1, threshold)
    {
    }
    forall k, j | k in s.entries && s.firstIndex <= k < j < s.commitIndex && AllOlder(s, j, threshold)
      ensures k !in t.entries
    {
      if x <= j {
        assert false;
      }
    }
  }

  lemma CommitKeeps(s: LogState, n: int, expirationTimeInMs: int, now: int)
    requires WellFormed(s)
    ensures var t := CommitUntil(s, n, expirationTimeInMs, now);
      && WellFormed(t)
      && t.nextIndex == s.nextIndex && t.commitIndex == CommitTarget(s, n)
      && (forall k :: k in t.entries ==> k in s.entries && t.entries[k] == s.entries[k])
      && (NoStragglers(s) ==> NoStragglers(t))
      && (expirationTimeInMs < 1 ==> t.entries == s.entries && t.firstIndex == s.firstIndex)
  {
    ExpireKeeps(s.(commitIndex := CommitTarget(s, n)), expirationTimeInMs, now);
  }

  // ---------- collecting entries ----------

  lemma {:induction false} CollectFull(entries: map<int, LogEntry>, lo: int, hi: int)
    requires lo <= hi
    requires forall k :: lo <= k < hi ==> k in entries
    ensures |Collect(entries, lo, hi)| == hi - lo
    ensures forall i {:trigger Collect(entries, lo, hi)[i]} :: 0 <= i < hi - lo ==>
              Collect(entries, lo, hi)[i] == entries[lo + i]
    decreases hi - lo
  {
    if lo < hi {
      CollectFull(entries, lo, hi - 1);
    }
  }

  lemma {:induction false} CollectNothing(entries: map<int, LogEntry>, lo: int, hi: int)
    requires forall k :: lo <= k < hi ==> k !in entries
    ensures Collect(entries, lo, hi) == []
    decreases hi - lo
  {
    if lo < hi {
      CollectNothing(entries, lo, hi - 1);
    }
  }

  lemma {:induction false} CollectSplit(entries: map<int, LogEntry>, lo: int, mid: int, hi: int)
    requires lo <= mid <= hi
    ensures Collect(entries, lo, hi) == Collect(entries, lo, mid) + Collect(entries, mid, hi)
    decreases hi - mid
  {
    if mid < hi {
      CollectSplit(entries, lo, mid, hi - 1);
    }
  }

  /** A stored index in [lo, hi) is followed only by stored indices. */
  ghost predicate ClosedUpward(entries: map<int, LogEntry>, lo: int, hi: int) {
    forall k, j :: lo <= k <= j < hi && k in entries ==> j in entries
  }

  /** The entry at position `i` of `n` collected entries sits at index `hi - n + i`: the index at
      which the receiver of an append request puts it. */
  ghost predicate Aligned(entries: map<int, LogEntry>, lo: int, hi: int) {
    EndsAt(Collect(entries, lo, hi), entries, hi)
  }

  ghost predicate EndsAt(es: seq<LogEntry>, entries: map<int, LogEntry>, hi: int) {
    forall i {:trigger es[i]} :: 0 <= i < |es| ==> StoredAt(entries, hi - |es| + i, es[i])
  }

  ghost predicate StoredAt(entries: map<int, LogEntry>, k: int, e: LogEntry) {
    k in entries && entries[k] == e
  }

  lemma EndsAtGrows(es: seq<LogEntry>, entries: map<int, LogEntry>, hi: int)
    requires EndsAt(es, entries, hi) && hi in entries
    ensures EndsAt(es + [entries[hi]], entries, hi + 1)
  {
    var longer := es + [entries[hi]];
    forall i | 0 <= i < |longer|
      ensures StoredAt(entries, hi + 1 - |longer| + i, longer[i])
    {
      assert hi + 1 - |longer| + i == hi - |es| + i;
      if i < |es| {
        assert StoredAt(entries, hi - |es| + i, es[i]);
      } else {
        assert StoredAt(entries, hi, longer[i]);
      }
    }
  }

  lemma {:induction false} ClosedCollectsSuffix(entries: map<int, LogEntry>, lo: int, hi: int)
    requires ClosedUpward(entries, lo, hi)
    ensures var es := Collect(entries, lo, hi);
      && (lo <= hi ==> lo <= hi - |es| <= hi)
      && EndsAt(es, entries, hi)
      && (forall k :: lo <= k < hi && k in entries ==> hi - |es| <= k)
    decreases hi - lo
  {
    if lo < hi {
      if hi - 1 in entries {
        ClosedCollectsSuffix(entries, lo, hi - 1);
        var pre, es := Collect(entries, lo, hi - 1), Collect(entries, lo, hi);
        EndsAtGrows(pre, entries, hi - 1);
      } else {
        CollectNothing(entries, lo, hi);
      }
    }
  }

  /** Exactly when the receiver can recompute the index of every collected entry from
      `nextIndex - entries.length`: there is no hole among the entries collected. */
  lemma AlignedExactlyWithoutHoles(s: LogState, start: int)
    requires WellFormed(s)
    ensures Aligned(s.entries, start, s.nextIndex) <==> ClosedUpward(s.entries, start, s.nextIndex)
  {
    var lo, hi := start, s.nextIndex;
    if ClosedUpward(s.entries, lo, hi) {
      ClosedCollectsSuffix(s.entries, lo, hi);
    }
    if Aligned(s.entries, lo, hi) {
      forall k, j | lo <= k <= j < hi && k in s.entries
        ensures j in s.entries
      {
        var es := Collect(s.entries, lo, hi);
        CollectHas(s.entries, lo, hi, k);
        var i :| 0 <= i < |es| && es[i] == s.entries[k];
        assert s.entries[hi - |es| + i].index == k;
        var at := j - (hi - |es|);
        assert es[at] in es;
      }
    }
  }

  lemma {:induction false} CollectHas(entries: map<int, LogEntry>, lo: int, hi: int, k: int)
    requires lo <= k < hi && k in entries
    ensures entries[k] in Collect(entries, lo, hi)
    decreases hi - lo
  {
    if k < hi - 1 {
      CollectHas(entries, lo, hi - 1, k);
    }
  }

  /** A log without stragglers sends aligned requests from any start. */
  lemma NoStragglersAligned(s: LogState, start: int)
    requires WellFormed(s) && NoStragglers(s)
    ensures ClosedUpward(s.entries, start, s.nextIndex)
  {
  }

  // ---------- runs of operations ----------

  datatype Operation =
    | DoSubmit(term: int, m: Message, now: int)
    | DoAdd(index: int, term: int, m: Message, now: int)
    | DoOverride(index: int, term: int, m: Message, now: int)
    | DoCommit(n: int, now: int)
    | DoReset(newCommitIndex: int)

  function Apply(s: LogState, op: Operation, expirationTimeInMs: int): LogState {
    match op
    case DoSubmit(term, m, now) => Submit(s, term, m, now)
    case DoAdd(index, term, m, now) => CompareAndAdd(s, index, term, m, now)
    case DoOverride(index, term, m, now) => CompareAndOverride(s, index, term, m, now)
    case DoCommit(n, now) => CommitUntil(s, n, expirationTimeInMs, now)
    case DoReset(c) => Reset(c)
  }

  function Run(ops: seq<Operation>, expirationTimeInMs: int): LogState {
    if ops == [] then EMPTY_LOG
    else Apply(Run(ops[..|ops| - 1], expirationTimeInMs), ops[|ops| - 1], expirationTimeInMs)
  }

  /** Everything the commits of a run hand out, in order. */
  function Committed(ops: seq<Operation>, expirationTimeInMs: int): seq<LogEntry> {
    if ops == [] then []
    else
      var before, op := ops[..|ops| - 1], ops[|ops| - 1];
      Committed(before, expirationTimeInMs) +
      (if op.DoCommit? then NewlyCommitted(Run(before, expirationTimeInMs), op.n) else [])
  }

  lemma {:induction false} RunWellFormed(ops: seq<Operation>, expirationTimeInMs: int)
    ensures WellFormed(Run(ops, expirationTimeInMs))
  {
    if ops != [] {
      var before, op := ops[..|ops| - 1], ops[|ops| - 1];
      RunWellFormed(before, expirationTimeInMs);
      if op.DoCommit? {
        CommitKeeps(Run(before, expirationTimeInMs), op.n, expirationTimeInMs, op.now);
      }
    }
  }

  /** A commit in a well-formed log never meets a missing entry: it hands out exactly the entries
      from the old commit index + 1 up to min(n, nextIndex - 1), in index order. */
  lemma CommitHandsOutAll(s: LogState, n: int)
    requires WellFormed(s)
    ensures var es := NewlyCommitted(s, n);
      && |es| == Max(0, Min(n, s.nextIndex - 1) - s.commitIndex)
      && (forall i {:trigger es[i]} :: 0 <= i < |es| ==>
            s.commitIndex + 1 + i in s.entries && es[i] == s.entries[s.commitIndex + 1 + i]
            && es[i].index == s.commitIndex + 1 + i)
  {
    CollectFull(s.entries, s.commitIndex + 1, CommitTarget(s, n) + 1);
  }

  /** Over a whole run without a reset the commits hand out index 0, 1, 2, ... with no gap and no
      repeat, whatever overrides and expiry do in between. */
  lemma {:induction false} CommitsAreConsecutive(ops: seq<Operation>, expirationTimeInMs: int)
    requires forall i :: 0 <= i < |ops| ==> !ops[i].DoReset?
    ensures |Committed(ops, expirationTimeInMs)| == Run(ops, expirationTimeInMs).commitIndex + 1
    ensures forall i :: 0 <= i < |Committed(ops, expirationTimeInMs)| ==>
              Committed(ops, expirationTimeInMs)[i].index == i
  {
    if ops != [] {
      var before, op := ops[..|ops| - 1], ops[|ops| - 1];
      CommitsAreConsecutive(before, expirationTimeInMs);
      var s := Run(before, expirationTimeInMs);
      RunWellFormed(before, expirationTimeInMs);
      if op.DoCommit? {
        CommitHandsOutAll(s, op.n);
        CommitKeeps(s, op.n, expirationTimeInMs, op.now);
      } else {
        assert !ops[|ops| - 1].DoReset?;
      }
    }
  }

  /** What a gap reset, a late chunk and further entries make of a log: an entry below `firstIndex`, then a
      hole, so that a request collected from it would be misaligned. */
  lemma StragglerMisaligns(m: Message, first: Message, other: Message)
    ensures var ops := [DoReset(5), DoOverride(5, 1, first, 0), DoOverride(2, 1, m, 0), DoAdd(6, 1, other, 0)];
      var s := Run(ops, 0);
      && !NoStragglers(s) && !Aligned(s.entries, 0, s.nextIndex)
      && Collect(s.entries, 0, s.nextIndex) ==
         [LogEntry(2, 1, m, 0), LogEntry(5, 1, first, 0), LogEntry(6, 1, other, 0)]
  {
    var ops := [DoReset(5), DoOverride(5, 1, first, 0), DoOverride(2, 1, m, 0), DoAdd(6, 1, other, 0)];
    assert ops[..3] == [DoReset(5), DoOverride(5, 1, first, 0), DoOverride(2, 1, m, 0)];
    assert ops[..3][..2] == [DoReset(5), DoOverride(5, 1, first, 0)];
    assert ops[..3][..2][..1] == [DoReset(5)] && ops[..3][..2][..1][..0] == [];
    var s1 := CompareAndOverride(Reset(5), 5, 1, first, 0);
    var s2 := CompareAndOverride(s1, 2, 1, m, 0);
    assert Run(ops[..3][..2][..1], 0) == Reset(5);
    assert Run(ops[..3][..2], 0) == s1 && Run(ops[..3], 0) == s2;
    var s := Run(ops, 0);
    assert s == Submit(s2, 1, other, 0);
    assert s.entries == map[2 := LogEntry(2, 1, m, 0), 5 := LogEntry(5, 1, first, 0), 6 := LogEntry(6, 1, other, 0)];
    CollectThree(s.entries, LogEntry(2, 1, m, 0), LogEntry(5, 1, first, 0), LogEntry(6, 1, other, 0));
    assert StoredAt(s.entries, 7 - 3 + 0, Collect(s.entries, 0, 7)[0]) ==> 4 in s.entries;
  }

  lemma CollectThree(entries: map<int, LogEntry>, a: LogEntry, b: LogEntry, c: LogEntry)
    requires entries == map[2 := a, 5 := b, 6 := c]
    ensures Collect(entries, 0, 7) == [a, b, c]
  {
    CollectSplit(entries, 0, 2, 7);
    CollectSplit(entries, 2, 3, 7);
    CollectSplit(entries, 3, 5, 7);
    CollectNothing(entries, 0, 2);
    CollectNothing(entries, 3, 5);
    CollectFull(entries, 2, 3);
    CollectFull(entries, 5, 7);
    assert Collect(entries, 2, 3) == [a] && Collect(entries, 5, 7) == [b, c];
  }

  // ---------- the memory estimate ----------

  ghost function TotalWeight(entries: map<int, LogEntry>): nat {
    WeightOf(entries, entries.Keys)
  }

  ghost function WeightOf(entries: map<int, LogEntry>, keys: set<int>): nat
    requires keys <= entries.Keys
  {
    if keys == {} then 0
    else
      var k := Pick(keys);
      entries[k].entry.Weight() + WeightOf(entries, keys - {k})
  }

  /** The sum does not depend on the order in which the entries are taken. */
  lemma {:induction false} WeightRemove(entries: map<int, LogEntry>, keys: set<int>, k: int)
    requires k in keys && keys <= entries.Keys
    ensures WeightOf(entries, keys) == entries[k].entry.Weight() + WeightOf(entries, keys - {k})
  {
    var j := Pick(keys);
    if j != k {
      WeightRemove(entries, keys - {j}, k);
      WeightRemove(entries, keys - {k}, j);
      assert keys - {j} - {k} == keys - {k} - {j};
    }
  }

  lemma {:induction false} WeightFrame(a: map<int, LogEntry>, b: map<int, LogEntry>, keys: set<int>)
    requires keys <= a.Keys && keys <= b.Keys
    requires forall k :: k in keys ==> a[k] == b[k]
    ensures WeightOf(a, keys) == WeightOf(b, keys)
  {
    if keys != {} {
      var k := Pick(keys);
      WeightRemove(a, keys, k);
      WeightRemove(b, keys, k);
      WeightFrame(a, b, keys - {k});
    }
  }

  lemma WeightDelete(entries: map<int, LogEntry>, k: int)
    requires k in entries
    ensures TotalWeight(entries) == entries[k].entry.Weight() + TotalWeight(entries - {k})
  {
    WeightRemove(entries, entries.Keys, k);
    WeightFrame(entries, entries - {k}, entries.Keys - {k});
    assert (entries - {k}).Keys == entries.Keys - {k};
  }

  lemma WeightPut(entries: map<int, LogEntry>, k: int, e: LogEntry)
    ensures TotalWeight(entries[k := e]) ==
            TotalWeight(entries) + e.entry.Weight() - (if k in entries then entries[k].entry.Weight() else 0)
  {
    WeightDelete(entries[k := e], k);
    if k in entries {
      WeightDelete(entries, k);
      assert entries[k := e] - {k} == entries - {k};
    } else {
      assert entries[k := e] - {k} == entries;
    }
  }
}
