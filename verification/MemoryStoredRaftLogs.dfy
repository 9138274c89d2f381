/** The log as the source has it: a map and three indices updated in place. */
module MemoryStoredRaftLogs {
  import opened Messages
  import opened RaftLogs

  class MemoryStoredRaftLogs {
    const expirationTimeInMs: int
    var entries: map<int, LogEntry>
    var firstIndex: int
    var nextIndex: int
    var commitIndex: int
    var memoryEstimateBytesLength: int

    ghost function State(): LogState
      reads this
    {
      LogState(entries, firstIndex, nextIndex, commitIndex)
    }

    /** The estimate is the sum over exactly the entries stored. */
    ghost predicate Valid()
      reads this
    {
      && WellFormed(State())
      && memoryEstimateBytesLength == TotalWeight(entries)
    }

    constructor (expirationTimeInMs: int)
      ensures Valid() && State() == EMPTY_LOG && this.expirationTimeInMs == expirationTimeInMs
    {
      this.expirationTimeInMs := expirationTimeInMs;
      entries, firstIndex, nextIndex, commitIndex := map[], 0, 0, -1;
      memoryEstimateBytesLength := 0;
    }

    method CommitUntil(newCommitIndex: int, now: int) returns (committedEntries: seq<LogEntry>)
      requires Valid()
      modifies this
      ensures Valid()
      ensures State() == RaftLogs.CommitUntil(old(State()), newCommitIndex, expirationTimeInMs, now)
      ensures committedEntries == NewlyCommitted(old(State()), newCommitIndex)
    {
      committedEntries := [];
      if newCommitIndex <= commitIndex {
        CommitHandsOutAll(State(), newCommitIndex);
        return;
      }
      ghost var start := commitIndex;
      while commitIndex < newCommitIndex
        invariant start <= commitIndex <= Max(start, Min(newCommitIndex, nextIndex - 1))
        invariant State() == old(State()).(commitIndex := commitIndex)
        invariant memoryEstimateBytesLength == old(memoryEstimateBytesLength)
        invariant committedEntries == Collect(entries, start + 1, commitIndex + 1)
        invariant |committedEntries| == commitIndex - start
      {
        if nextIndex <= commitIndex + 1 {
          break;
        }
        var nextCommitIndex := commitIndex + 1;
        if nextCommitIndex !in entries {
          // the loop never gets here: everything above the commit index is stored
          assert false;
          break;
        }
        commitIndex := nextCommitIndex;
        committedEntries := committedEntries + [entries[nextCommitIndex]];
      }
      if 0 < |committedEntries| {
        Expire(now);
      }
    }

    method Expire(now: int)
      requires Valid()
      modifies this
      ensures Valid()
      ensures State() == RaftLogs.Expire(old(State()), expirationTimeInMs, now)
    {
      if expirationTimeInMs < 1 {
        return;
      }
      hide WellFormed, FirstFresh, TotalWeight, ScanStart, Without;
      ghost var s := State();
      ExpiryResult(s, expirationTimeInMs, now);
      var expiredLogIndex := ScanForExpired(now - expirationTimeInMs);
      if expiredLogIndex < 0 {
        return;
      }
      if nextIndex <= expiredLogIndex || expiredLogIndex < firstIndex {
        assert false;
        return;
      }
      DeleteUntil(expiredLogIndex);
    }

    /** The second loop of the expiry. */
    method DeleteUntil(expiredLogIndex: int)
      requires firstIndex <= expiredLogIndex
      requires memoryEstimateBytesLength == TotalWeight(entries)
      modifies this`firstIndex, this`entries, this`memoryEstimateBytesLength
      ensures entries == Without(old(entries), old(firstIndex), expiredLogIndex)
      ensures firstIndex == expiredLogIndex
      ensures memoryEstimateBytesLength == TotalWeight(entries)
    {
      var index := firstIndex;
      while index < expiredLogIndex
        invariant firstIndex == old(firstIndex) <= index <= expiredLogIndex
        invariant entries == Without(old(entries), firstIndex, index)
        invariant memoryEstimateBytesLength == TotalWeight(entries)
      {
        if index in entries {
          WeightDelete(entries, index);
          memoryEstimateBytesLength := memoryEstimateBytesLength - entries[index].entry.Weight();
          entries := entries - {index};
        }
        index := index + 1;
      }
      firstIndex := expiredLogIndex;
    }

    /** The first loop of the expiry: it skips a missing first entry and stops at the first fresh one. */
    method ScanForExpired(thresholdInMs: int) returns (expiredLogIndex: int)
      requires Valid()
      modifies this`firstIndex
      ensures firstIndex == ScanStart(old(State()))
      ensures var x := FirstFresh(entries, firstIndex, commitIndex, thresholdInMs);
        expiredLogIndex == if firstIndex < x then x - 1 else -1
      ensures firstIndex <= commitIndex + 1
    {
      ghost var s := State();
      expiredLogIndex := -1;
      var index := firstIndex;
      while index < commitIndex
        invariant s.firstIndex <= index
        invariant index == s.firstIndex ==> firstIndex == s.firstIndex && expiredLogIndex == -1
        invariant s.firstIndex < index ==>
          index <= commitIndex && firstIndex == ScanStart(s) && s.firstIndex < commitIndex
        invariant s.firstIndex < index ==>
          firstIndex <= index && expiredLogIndex == if firstIndex < index then index - 1 else -1
        invariant s.firstIndex < index ==>
          FirstFresh(entries, firstIndex, commitIndex, thresholdInMs) ==
          FirstFresh(entries, index, commitIndex, thresholdInMs)
      {
        if index !in entries {
          firstIndex := index + 1;
        } else {
          if thresholdInMs <= entries[index].timestamp {
            break;
          }
          FirstFreshSteps(entries, index, commitIndex, thresholdInMs);
          expiredLogIndex := index;
        }
        index := index + 1;
      }
    }

    method Submit(term: int, entry: Message, now: int) returns (index: int)
      requires Valid()
      modifies this
      ensures Valid()
      ensures State() == RaftLogs.Submit(old(State()), term, entry, now)
      ensures index == old(nextIndex)
    {
      var logEntry := LogEntry(nextIndex, term, entry, now);
      WeightPut(entries, nextIndex, logEntry);
      entries := entries[logEntry.index := logEntry];
      nextIndex := nextIndex + 1;
      memoryEstimateBytesLength := memoryEstimateBytesLength + |entry.values| + |entry.keys|;
      return logEntry.index;
    }

    method CompareAndOverride(index: int, expectedTerm: int, entry: Message, now: int)
      returns (replaced: Option<LogEntry>)
      requires Valid()
      modifies this
      ensures Valid()
      ensures State() == RaftLogs.CompareAndOverride(old(State()), index, expectedTerm, entry, now)
      ensures replaced == if Overrides(old(State()), index, expectedTerm) && index in old(entries)
                          then Some(old(entries)[index]) else None
    {
      if nextIndex <= index {
        return None;
      }
      var newLogEntry := LogEntry(index, expectedTerm, entry, now);
      WeightPut(entries, index, newLogEntry);
      if index !in entries {
        entries := entries[index := newLogEntry];
        memoryEstimateBytesLength := memoryEstimateBytesLength + |entry.values| + |entry.keys|;
        return None;
      }
      var oldLogEntry := entries[index];
      if expectedTerm == oldLogEntry.term {
        return None;
      }
      entries := entries[index := newLogEntry];
      memoryEstimateBytesLength := memoryEstimateBytesLength - (|oldLogEntry.entry.values| + |oldLogEntry.entry.keys|);
      memoryEstimateBytesLength := memoryEstimateBytesLength + |entry.values| + |entry.keys|;
      return Some(oldLogEntry);
    }

    method CompareAndAdd(expectedNextIndex: int, term: int, entry: Message, now: int) returns (added: bool)
      requires Valid()
      modifies this
      ensures Valid()
      ensures State() == RaftLogs.CompareAndAdd(old(State()), expectedNextIndex, term, entry, now)
      ensures added <==> expectedNextIndex == old(nextIndex)
    {
      if nextIndex != expectedNextIndex {
        return false;
      }
      var logEntry := LogEntry(nextIndex, term, entry, now);
      WeightPut(entries, nextIndex, logEntry);
      memoryEstimateBytesLength := memoryEstimateBytesLength + |entry.values| + |entry.keys|;
      entries := entries[logEntry.index := logEntry];
      nextIndex := nextIndex + 1;
      return true;
    }

    method CollectEntries(startIndex: int, end: Option<int>) returns (result: seq<LogEntry>)
      ensures result == Collect(entries, startIndex, if end.None? then nextIndex else Min(end.value, nextIndex))
    {
      result := [];
      var endIndex := nextIndex;
      if end.Some? {
        if end.value < startIndex {
          return;
        }
        endIndex := Min(end.value, nextIndex);
      }
      var logIndex := startIndex;
      while logIndex < endIndex
        invariant startIndex <= logIndex
        invariant logIndex <= Max(startIndex, endIndex)
        invariant result == Collect(entries, startIndex, logIndex)
      {
        if logIndex in entries {
          result := result + [entries[logIndex]];
        }
        logIndex := logIndex + 1;
      }
    }

    /** The iterator: the stored entries above the commit index. */
    method Uncommitted() returns (result: seq<LogEntry>)
      ensures result == Collect(entries, commitIndex + 1, nextIndex)
    {
      result := [];
      var index := commitIndex + 1;
      while index < nextIndex
        invariant commitIndex + 1 <= index
        invariant index <= Max(commitIndex + 1, nextIndex)
        invariant result == Collect(entries, commitIndex + 1, index)
      {
        if index in entries {
          result := result + [entries[index]];
        }
        index := index + 1;
      }
    }

    method Reset(newCommitIndex: int)
      modifies this
      ensures Valid()
      ensures State() == RaftLogs.Reset(newCommitIndex)
    {
      entries := map[];
      commitIndex := newCommitIndex;
      nextIndex := newCommitIndex + 1;
      firstIndex := newCommitIndex;
      memoryEstimateBytesLength := 0;
    }
  }

  /** Expiry by its last expired index, which lies within the log. */
  lemma ExpiryResult(s: LogState, expirationTimeInMs: int, now: int)
    requires WellFormed(s) && 1 <= expirationTimeInMs
    ensures var e, t := ExpiredIndex(s, expirationTimeInMs, now), RaftLogs.Expire(s, expirationTimeInMs, now);
      && WellFormed(t) && (0 <= e ==> ScanStart(s) <= e < s.nextIndex)
      && t == if e < 0 then s.(firstIndex := ScanStart(s))
              else s.(entries := Without(s.entries, ScanStart(s), e), firstIndex := e)
  {
    ExpireKeeps(s, expirationTimeInMs, now);
    FirstFreshBounds(s.entries, ScanStart(s), s.commitIndex, now - expirationTimeInMs);
  }

  lemma FirstFreshSteps(entries: map<int, LogEntry>, k: int, hi: int, threshold: int)
    requires k < hi && k in entries && entries[k].timestamp < threshold
    ensures FirstFresh(entries, k, hi, threshold) == FirstFresh(entries, k + 1, hi, threshold)
  {
  }
}
