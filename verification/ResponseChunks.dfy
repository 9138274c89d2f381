/** Splitting a response that is too large into chunks, and assembling the chunks again. */
module ResponseChunks {
  import opened Messages
  import opened RaftLogs
  import opened AppendEntriesRequests

  // ---------- splitting ----------

  /** A position given to `slice`: a negative one counts from the end, and both are cut off. */
  function Position(i: int, length: nat): (r: nat)
    ensures r <= length
  {
    if i < 0 then (if length + i < 0 then 0 else length + i) else if i <= length then i else length
  }

  /** `slice` of JavaScript. */
  function Slice<T>(s: seq<T>, start: int, end: int): seq<T> {
    var a, b := Position(start, |s|), Position(end, |s|);
    if a <= b then s[a..b] else []
  }

  predicate Continues(m: Message, start: int) {
    start < |m.keys| && (m.values == [] || start < |m.values|)
  }

  function ChunkAt(m: Message, start: int, end: int, sequence: int): Message {
    m.(keys := Slice(m.keys, start, end), values := Slice(m.values, start, end),
       sequence := Some(sequence), lastMessage := Some(end == |m.keys|))
  }

  /** Where the generator's loop stands after `n` turns. */
  function SliceStart(n: nat, max: int, length: nat): int {
    if n == 0 then 0 else Min(SliceStart(n - 1, max, length) + max, length)
  }

  /** What the generator yields to a consumer that pulls `pulls` times. */
  function Yielded(m: Message, max: int, pulls: nat): seq<Message> {
    if pulls == 0 then []
    else
      var before, start := Yielded(m, max, pulls - 1), SliceStart(pulls - 1, max, |m.keys|);
      if |before| == pulls - 1 && Continues(m, start)
      then before + [ChunkAt(m, start, SliceStart(pulls, max, |m.keys|), pulls - 1)]
      else before
  }

  /** Both limits below 1: no limit.  Otherwise the keys limit holds for keys alone, and the smaller of
      the two for entries. */
  predicate NeedsChunks(m: Message, maxKeys: int, maxValues: int) {
    && (1 <= maxKeys || 1 <= maxValues)
    && m.keys != []
    && if m.values == [] then maxKeys < |m.keys| else Min(maxKeys, maxValues) < Max(|m.keys|, |m.values|)
  }

  function LimitFor(m: Message, maxKeys: int, maxValues: int): int {
    if m.values == [] then maxKeys else Min(maxKeys, maxValues)
  }

  /** What `apply` yields to a consumer that pulls `pulls` times. */
  function Pulled(m: Message, maxKeys: int, maxValues: int, pulls: nat): seq<Message> {
    if NeedsChunks(m, maxKeys, maxValues) then Yielded(m, LimitFor(m, maxKeys, maxValues), pulls)
    else if pulls == 0 then []
    else [m]
  }

  class ResponseChunker {
    const maxKeys: int
    const maxValues: int

    constructor (maxKeys: int, maxValues: int)
      ensures this.maxKeys == maxKeys && this.maxValues == maxValues
    {
      this.maxKeys, this.maxValues := maxKeys, maxValues;
    }

    /** The chunks a consumer gets that pulls `pulls` times; a generator runs no further than it is pulled. */
    method Apply(m: Message, pulls: nat) returns (chunks: seq<Message>)
      ensures chunks == Pulled(m, maxKeys, maxValues, pulls)
    {
      var whole := if pulls == 0 then [] else [m];
      if maxKeys < 1 && maxValues < 1 {
        return whole;
      }
      var maxEntries := Min(maxKeys, maxValues);
      if |m.keys| < 1 {
        return whole;
      }
      if |m.values| < 1 {
        if |m.keys| <= maxKeys {
          return whole;
        }
        chunks := ChunkByKeys(m, pulls);
      } else {
        if Max(|m.keys|, |m.values|) <= maxEntries {
          return whole;
        }
        chunks := ChunkByEntries(m, maxEntries, pulls);
      }
    }

    method ChunkByKeys(m: Message, pulls: nat) returns (chunks: seq<Message>)
      requires m.values == []
      ensures chunks == Yielded(m, maxKeys, pulls)
    {
      hide ChunkAt;
      chunks := [];
      var sliceStart, sequence := 0, 0;
      while sliceStart < |m.keys| && sequence < pulls
        invariant 0 <= sequence <= pulls && |chunks| == sequence
        invariant sliceStart == SliceStart(sequence, maxKeys, |m.keys|)
        invariant chunks == Yielded(m, maxKeys, sequence)
        decreases pulls - sequence
      {
        var sliceEnd := Min(sliceStart + maxKeys, |m.keys|);
        var lastMessage := |m.keys| == sliceEnd;
        KeysOnly(m, sliceStart, sliceEnd, sequence);
        chunks := chunks + [m.(keys := Slice(m.keys, sliceStart, sliceEnd),
                               sequence := Some(sequence), lastMessage := Some(lastMessage))];
        sliceStart := sliceEnd;
        sequence := sequence + 1;
      }
      YieldedStops(m, maxKeys, sequence, pulls);
    }

    method ChunkByEntries(m: Message, maxEntries: int, pulls: nat) returns (chunks: seq<Message>)
      requires m.values != []
      ensures chunks == Yielded(m, maxEntries, pulls)
    {
      chunks := [];
      var sliceStart, sequence := 0, 0;
      while sliceStart < |m.keys| && sliceStart < |m.values| && sequence < pulls
        invariant 0 <= sequence <= pulls && |chunks| == sequence
        invariant sliceStart == SliceStart(sequence, maxEntries, |m.keys|)
        invariant chunks == Yielded(m, maxEntries, sequence)
        decreases pulls - sequence
      {
        var sliceEnd := Min(sliceStart + maxEntries, |m.keys|);
        var lastMessage := |m.keys| == sliceEnd;
        chunks := chunks + [m.(keys := Slice(m.keys, sliceStart, sliceEnd),
                               values := Slice(m.values, sliceStart, sliceEnd),
                               sequence := Some(sequence), lastMessage := Some(lastMessage))];
        sliceStart := sliceEnd;
        sequence := sequence + 1;
      }
      YieldedStops(m, maxEntries, sequence, pulls);
    }
  }

  lemma KeysOnly(m: Message, start: int, end: int, sequence: int)
    requires m.values == []
    ensures ChunkAt(m, start, end, sequence) ==
            m.(keys := Slice(m.keys, start, end), sequence := Some(sequence), lastMessage := Some(end == |m.keys|))
  {
  }

  /** Once the loop has ended, pulling again yields nothing more. */
  lemma {:induction false} YieldedStops(m: Message, max: int, n: nat, pulls: nat)
    requires n <= pulls && |Yielded(m, max, n)| == n
    requires n == pulls || !Continues(m, SliceStart(n, max, |m.keys|))
    ensures Yielded(m, max, pulls) == Yielded(m, max, n)
    decreases pulls
  {
    if n < pulls {
      YieldedStops(m, max, n, pulls - 1);
    }
  }

  lemma {:induction false} SliceAdvances(n: nat, max: int, length: nat)
    ensures if 1 <= max then Min(n, length) <= SliceStart(n, max, length) <= length
            else SliceStart(n, max, length) <= 0
  {
    if n != 0 {
      SliceAdvances(n - 1, max, length);
    }
  }

  lemma {:induction false} YieldsForever(m: Message, max: int, n: nat)
    requires max < 1 && Continues(m, 0)
    ensures |Yielded(m, max, n)| == n
  {
    if n != 0 {
      YieldsForever(m, max, n - 1);
      SliceAdvances(n - 1, max, |m.keys|);
    }
  }

  lemma {:induction false} YieldsAtMost(m: Message, max: int, n: nat)
    ensures |Yielded(m, max, n)| <= n
  {
    if n != 0 {
      YieldsAtMost(m, max, n - 1);
    }
  }

  /** The generator comes to an end exactly if the limit is at least 1 or there is nothing to slice: with one
      limit set and the other left below 1 it yields chunks forever. */
  lemma ChunkingEndsExactly(m: Message, max: int)
    ensures (exists n: nat :: |Yielded(m, max, n)| < n) <==> 1 <= max || !Continues(m, 0)
  {
    if !Continues(m, 0) {
      assert |Yielded(m, max, 1)| < 1;
    } else if 1 <= max {
      var n := |m.keys|;
      YieldsAtMost(m, max, n);
      SliceAdvances(n, max, n);
      assert |Yielded(m, max, n + 1)| < n + 1;
    } else {
      forall n: nat
        ensures |Yielded(m, max, n)| == n
      {
        YieldsForever(m, max, n);
      }
    }
  }

  // ---------- how large a chunk is ----------

  lemma {:induction false} SliceStartsAt(n: nat, max: int, length: nat)
    requires 1 <= max
    ensures SliceStart(n, max, length) == Min(n * max, length)
  {
    if n != 0 {
      SliceStartsAt(n - 1, max, length);
      assert (n - 1) * max + max == n * max;
    }
  }

  /** Chunk `i` holds the keys from `i * max` on, `max` of them or what is left, and the values at the same
      positions; it is numbered `i`, marked last exactly if it ends with the last key, and otherwise is the message. */
  ghost predicate IsSlice(c: Message, m: Message, max: int, i: nat) {
    IsSliceFrom(c, m, i * max, max, i)
  }

  ghost predicate IsSliceFrom(c: Message, m: Message, lo: int, max: int, i: nat) {
    var hi := Min(lo + max, |m.keys|);
    && 0 <= lo < hi && c.keys == m.keys[lo..hi]
    && (if |m.values| <= lo then c.values == [] else c.values == m.values[lo..Min(hi, |m.values|)])
    && c == m.(keys := c.keys, values := c.values, sequence := Some(i), lastMessage := Some(hi == |m.keys|))
  }

  lemma SliceAt(m: Message, max: int, i: nat)
    requires 1 <= max && Continues(m, SliceStart(i, max, |m.keys|))
    ensures IsSlice(ChunkAt(m, SliceStart(i, max, |m.keys|), SliceStart(i + 1, max, |m.keys|), i), m, max, i)
  {
    SliceStartsAt(i, max, |m.keys|);
    SliceAdvances(i, max, |m.keys|);
    CutAt(m, SliceStart(i, max, |m.keys|), max, i);
    hide IsSliceFrom, ChunkAt;
  }

  lemma CutAt(m: Message, lo: nat, max: int, i: nat)
    requires 1 <= max && Continues(m, lo)
    ensures IsSliceFrom(ChunkAt(m, lo, Min(lo + max, |m.keys|), i), m, lo, max, i)
  {
  }

  lemma {:induction false} YieldsSlices(m: Message, max: int, pulls: nat)
    requires 1 <= max
    ensures forall i :: 0 <= i < |Yielded(m, max, pulls)| ==> IsSlice(Yielded(m, max, pulls)[i], m, max, i)
  {
    hide IsSlice, ChunkAt, Continues;
    if pulls != 0 {
      YieldsSlices(m, max, pulls - 1);
      if |Yielded(m, max, pulls - 1)| == pulls - 1 && Continues(m, SliceStart(pulls - 1, max, |m.keys|)) {
        SliceAt(m, max, pulls - 1);
      }
    }
  }

  /** The limits for a response and all its chunks: keys alone against the keys limit, entries against the
      smaller one. */
  predicate Within(c: Message, m: Message, maxKeys: int, maxValues: int) {
    if m.values == [] then |c.keys| <= maxKeys
    else |c.keys| <= Min(maxKeys, maxValues) && |c.values| <= Min(maxKeys, maxValues)
  }

  /** The limits that count for this response are at least 1. */
  predicate Bounded(m: Message, maxKeys: int, maxValues: int) {
    1 <= maxKeys && (m.values != [] ==> 1 <= maxValues)
  }

  /** How many keys a chunk holds unless it is the last. */
  predicate Full(c: Message, m: Message, maxKeys: int, maxValues: int) {
    |c.keys| == if m.values == [] then maxKeys else Min(maxKeys, maxValues)
  }

  lemma SliceWithin(c: Message, m: Message, maxKeys: int, maxValues: int, i: nat)
    requires Bounded(m, maxKeys, maxValues) && IsSlice(c, m, LimitFor(m, maxKeys, maxValues), i)
    ensures c.keys != [] && Within(c, m, maxKeys, maxValues)
    ensures c.lastMessage == Some(true) || Full(c, m, maxKeys, maxValues)
  {
  }

  /** Every chunk keeps the limits, all but the last reach them, and a response comes uncut exactly if it is within
      them or has no keys.  For keys alone the limit on values does not matter. */
  lemma ChunksKeepLimits(m: Message, maxKeys: int, maxValues: int, pulls: nat)
    requires Bounded(m, maxKeys, maxValues)
    ensures var cs := Pulled(m, maxKeys, maxValues, pulls);
      && (m.keys != [] ==> forall i :: 0 <= i < |cs| ==> Within(cs[i], m, maxKeys, maxValues))
      && (pulls != 0 ==> (cs == [m] <==> m.keys == [] || Within(m, m, maxKeys, maxValues)))
      && (m.keys != [] && !Within(m, m, maxKeys, maxValues) ==>
            forall i :: 0 <= i < |cs| ==> cs[i].lastMessage == Some(true) || Full(cs[i], m, maxKeys, maxValues))
  {
    var cs := Pulled(m, maxKeys, maxValues, pulls);
    if NeedsChunks(m, maxKeys, maxValues) {
      YieldsSlices(m, LimitFor(m, maxKeys, maxValues), pulls);
      forall i | 0 <= i < |cs|
        ensures Within(cs[i], m, maxKeys, maxValues)
        ensures cs[i].lastMessage == Some(true) || Full(cs[i], m, maxKeys, maxValues)
      {
        hide IsSlice, Within, Yielded;
        SliceWithin(cs[i], m, maxKeys, maxValues, i);
      }
      if cs == [m] {
        assert cs[0] == m;
      }
    }
    hide Yielded;
    assert NeedsChunks(m, maxKeys, maxValues) <==> m.keys != [] && !Within(m, m, maxKeys, maxValues);
  }

  /** With one limit set and the one that counts below 1, a response with keys is cut without end. */
  lemma MixedLimitsNeverEnd(m: Message, maxKeys: int, maxValues: int, pulls: nat)
    requires (1 <= maxKeys || 1 <= maxValues) && !Bounded(m, maxKeys, maxValues) && m.keys != []
    ensures |Pulled(m, maxKeys, maxValues, pulls)| == pulls
  {
    YieldsForever(m, LimitFor(m, maxKeys, maxValues), pulls);
  }

  /** Without limits nothing is cut. */
  lemma Unlimited(m: Message, maxKeys: int, maxValues: int, pulls: nat)
    requires maxKeys < 1 && maxValues < 1 && pulls != 0
    ensures Pulled(m, maxKeys, maxValues, pulls) == [m]
  {
  }

  // ---------- the chunks of a generator that ends ----------

  /** The chunks from position `start` on, `max` keys each, numbered from `sequence` on. */
  function ChunksFrom(m: Message, start: nat, sequence: int, max: int): seq<Message>
    requires 1 <= max
    decreases |m.keys| - start
  {
    if !Continues(m, start) then []
    else
      var end := Min(start + max, |m.keys|);
      [ChunkAt(m, start, end, sequence)] + ChunksFrom(m, end, sequence + 1, max)
  }

  function Chunks(m: Message, maxKeys: int, maxValues: int): seq<Message>
    requires NeedsChunks(m, maxKeys, maxValues) ==> 1 <= LimitFor(m, maxKeys, maxValues)
  {
    if NeedsChunks(m, maxKeys, maxValues) then ChunksFrom(m, 0, 0, LimitFor(m, maxKeys, maxValues)) else [m]
  }

  lemma ChunksUnfold(m: Message, start: nat, sequence: int, max: int)
    requires 1 <= max
    ensures ChunksFrom(m, start, sequence, max) ==
            if !Continues(m, start) then []
            else [ChunkAt(m, start, Min(start + max, |m.keys|), sequence)] +
                 ChunksFrom(m, Min(start + max, |m.keys|), sequence + 1, max)
  {
    hide ChunkAt;
  }

  lemma YieldedUnfolds(m: Message, max: int, n: nat)
    requires 1 <= n
    ensures Yielded(m, max, n) ==
            if |Yielded(m, max, n - 1)| == n - 1 && Continues(m, SliceStart(n - 1, max, |m.keys|))
            then Yielded(m, max, n - 1) +
                 [ChunkAt(m, SliceStart(n - 1, max, |m.keys|), SliceStart(n, max, |m.keys|), n - 1)]
            else Yielded(m, max, n - 1)
    ensures SliceStart(n, max, |m.keys|) == Min(SliceStart(n - 1, max, |m.keys|) + max, |m.keys|)
  {
    hide ChunkAt, Continues;
  }

  /** What is still to come after `n` pulls. */
  function Rest(m: Message, max: int, n: nat): seq<Message>
    requires 1 <= max
  {
    var start := SliceStart(n, max, |m.keys|);
    if |Yielded(m, max, n)| == n && 0 <= start then ChunksFrom(m, start, n, max) else []
  }

  lemma PullMovesOne<T>(before: seq<T>, c: T, rest: seq<T>)
    ensures before + ([c] + rest) == before + [c] + rest
  {
  }

  lemma PullKeepsAll(m: Message, max: int, n: nat)
    requires 1 <= max && 1 <= n
    ensures Yielded(m, max, n) + Rest(m, max, n) == Yielded(m, max, n - 1) + Rest(m, max, n - 1)
  {
    hide ChunkAt, Continues, Yielded, ChunksFrom, SliceStart;
    var before, start, end := Yielded(m, max, n - 1), SliceStart(n - 1, max, |m.keys|), SliceStart(n, max, |m.keys|);
    SliceAdvances(n - 1, max, |m.keys|);
    SliceAdvances(n, max, |m.keys|);
    YieldsAtMost(m, max, n - 1);
    YieldedUnfolds(m, max, n);
    ChunksUnfold(m, start, n - 1, max);
    if |before| == n - 1 && Continues(m, start) {
      PullMovesOne(before, ChunkAt(m, start, end, n - 1), ChunksFrom(m, end, n, max));
    } else {
      assert Yielded(m, max, n) == before;
      assert Rest(m, max, n) == [] == Rest(m, max, n - 1);
    }
  }

  lemma NothingPulled(m: Message, max: int)
    requires 1 <= max
    ensures Yielded(m, max, 0) + Rest(m, max, 0) == ChunksFrom(m, 0, 0, max)
  {
    hide ChunksFrom;
    assert Yielded(m, max, 0) == [] && Rest(m, max, 0) == ChunksFrom(m, 0, 0, max);
  }

  lemma {:induction false} YieldedIsPrefix(m: Message, max: int, n: nat)
    requires 1 <= max
    ensures ChunksFrom(m, 0, 0, max) == Yielded(m, max, n) + Rest(m, max, n)
  {
    if n == 0 {
      NothingPulled(m, max);
    } else {
      hide Rest, Yielded, ChunksFrom;
      YieldedIsPrefix(m, max, n - 1);
      PullKeepsAll(m, max, n);
    }
  }

  /** A consumer that pulls once for each key, and at least once, gets all the chunks. */
  lemma PulledIsAll(m: Message, maxKeys: int, maxValues: int, pulls: nat)
    requires NeedsChunks(m, maxKeys, maxValues) ==> 1 <= LimitFor(m, maxKeys, maxValues)
    requires |m.keys| <= pulls && 1 <= pulls
    ensures Pulled(m, maxKeys, maxValues, pulls) == Chunks(m, maxKeys, maxValues)
  {
    if NeedsChunks(m, maxKeys, maxValues) {
      var max := LimitFor(m, maxKeys, maxValues);
      YieldedIsPrefix(m, max, pulls);
      SliceAdvances(pulls, max, |m.keys|);
    }
  }

  // ---------- assembling ----------

  datatype Pending = Pending(messages: map<int, Message>, endSeq: int, result: Option<Message>)

  const NEW_PENDING := Pending(map[], -1, None)

  /** The keys of the chunks at positions [0, n); a missing chunk adds nothing. */
  function KeysOf(messages: map<int, Message>, n: nat): seq<Bytes> {
    if n == 0 then [] else KeysOf(messages, n - 1) + if n - 1 in messages then messages[n - 1].keys else []
  }

  function ValuesOf(messages: map<int, Message>, n: nat): seq<Bytes> {
    if n == 0 then [] else ValuesOf(messages, n - 1) + if n - 1 in messages then messages[n - 1].values else []
  }

  function Assembled(messages: map<int, Message>, n: nat): Message
    requires 0 in messages
  {
    messages[0].(sequence := None, lastMessage := None, keys := KeysOf(messages, n), values := ValuesOf(messages, n))
  }

  function Complete(messages: map<int, Message>, endSeq: int, m: Message): Pending {
    if endSeq < 0 then Pending(messages, endSeq, None)
    else if endSeq == 0 then Pending(map[], endSeq, Some(m))
    else if |messages| != endSeq + 1 || 0 !in messages then Pending(messages, endSeq, None)
    else Pending(messages, endSeq, Some(Assembled(messages, endSeq + 1)))
  }

  function Accepted(p: Pending, m: Message): Pending {
    if p.result.Some? || m.lastMessage.None? || m.sequence.None? then p
    else
      Complete(p.messages[m.sequence.value := m],
               if m.lastMessage.value then m.sequence.value else p.endSeq, m)
  }

  class PendingResponse {
    var messages: map<int, Message>
    var endSeq: int
    var result: Option<Message>

    ghost function Value(): Pending
      reads this
    {
      Pending(messages, endSeq, result)
    }

    constructor ()
      ensures Value() == NEW_PENDING
    {
      messages, endSeq, result := map[], -1, None;
    }

    method Accept(m: Message)
      modifies this
      ensures Value() == Accepted(old(Value()), m)
    {
      if result.Some? {
        return;
      }
      if m.lastMessage.None? {
        return;
      }
      if m.sequence.None? {
        return;
      }
      messages := messages[m.sequence.value := m];
      if m.lastMessage == Some(true) {
        endSeq := m.sequence.value;
      }
      if endSeq < 0 {
        return;
      }
      if endSeq == 0 {
        result := Some(m);
        messages := map[];
        return;
      }
      if |messages| != endSeq + 1 {
        return;
      }
      if 0 !in messages {
        return;
      }
      var assembled := Assemble();
      result := Some(assembled);
    }

    method Assemble() returns (assembled: Message)
      requires 0 in messages && 1 <= endSeq
      ensures assembled == Assembled(messages, endSeq + 1)
    {
      assembled := messages[0].(sequence := None, lastMessage := None);
      assert KeysOf(messages, 0) == [] && ValuesOf(messages, 0) == [];
      for index := 1 to endSeq + 1
        invariant assembled == messages[0].(sequence := None, lastMessage := None,
                                            keys := KeysOf(messages, index), values := ValuesOf(messages, index))
      {
        if index in messages {
          if 0 < |messages[index].keys| {
            assembled := assembled.(keys := assembled.keys + messages[index].keys);
          }
          if 0 < |messages[index].values| {
            assembled := assembled.(values := assembled.values + messages[index].values);
          }
        }
      }
    }
  }

  /** The first chunk of a response that is its last one, numbered 0, is the response, whatever was pending. */
  lemma LoneChunkIsResult(p: Pending, m: Message)
    requires p.result.None? && m.sequence == Some(0) && m.lastMessage == Some(true)
    ensures Accepted(p, m) == Pending(map[], 0, Some(m))
  {
  }

  /** What arrives after the result, or carries no number or no end mark, changes nothing. */
  lemma UnnumberedIgnored(p: Pending, m: Message)
    ensures p.result.Some? || m.sequence.None? || m.lastMessage.None? ==> Accepted(p, m) == p
  {
  }

  /** Of two chunks with one number the later counts, and a chunk is kept until all up to the end mark are in. */
  lemma LaterChunkCounts(p: Pending, m: Message)
    requires p.result.None? && m.sequence.Some? && m.lastMessage.Some? && m.sequence.value != 0
    requires p.endSeq != 0
    ensures var r := Accepted(p, m);
      && r.messages == p.messages[m.sequence.value := m]
      && r.endSeq == (if m.lastMessage.value then m.sequence.value else p.endSeq)
      && (r.result.Some? <==> 0 < r.endSeq && |r.messages| == r.endSeq + 1 && 0 in r.messages)
  {
  }

  /** A chunk that is missing when the rest is assembled adds nothing and takes nothing away: the assembly is the one
      with an empty chunk in its place. */
  lemma {:induction false} MissingAddsNothing(messages: map<int, Message>, n: nat, k: int, empty: Message)
    requires k !in messages && empty.keys == [] && empty.values == []
    ensures KeysOf(messages[k := empty], n) == KeysOf(messages, n)
    ensures ValuesOf(messages[k := empty], n) == ValuesOf(messages, n)
  {
    if n != 0 {
      MissingAddsNothing(messages, n - 1, k, empty);
    }
  }

  // ---------- what the chunks hold ----------

  function AllKeys(cs: seq<Message>): seq<Bytes> {
    if cs == [] then [] else AllKeys(cs[..|cs| - 1]) + cs[|cs| - 1].keys
  }

  function AllValues(cs: seq<Message>): seq<Bytes> {
    if cs == [] then [] else AllValues(cs[..|cs| - 1]) + cs[|cs| - 1].values
  }

  lemma {:induction false} AllSplits(c: Message, cs: seq<Message>)
    ensures AllKeys([c] + cs) == c.keys + AllKeys(cs)
    ensures AllValues([c] + cs) == c.values + AllValues(cs)
  {
    if cs == [] {
      assert [c] + cs == [] + [c];
      AllGrow([], c);
      assert AllKeys([]) == [] && AllValues([]) == [];
    } else {
      hide AllKeys, AllValues;
      var before, last := cs[..|cs| - 1], cs[|cs| - 1];
      AllSplits(c, before);
      assert cs == before + [last] && [c] + cs == ([c] + before) + [last];
      AllGrow(before, last);
      AllGrow([c] + before, last);
    }
  }

  lemma AllGrow(cs: seq<Message>, c: Message)
    ensures AllKeys(cs + [c]) == AllKeys(cs) + c.keys && AllValues(cs + [c]) == AllValues(cs) + c.values
  {
    assert (cs + [c])[..|cs|] == cs;
  }

  /** The start of the last slice the keys ask for. */
  function LastStart(start: nat, max: int, length: nat): nat
    requires 1 <= max
    decreases length - start
  {
    if length <= start + max then start else LastStart(start + max, max, length)
  }

  /** The values reach into the slice of the last keys (or there are none). */
  predicate ReachesEnd(m: Message, start: nat, max: int)
    requires 1 <= max
  {
    m.values == [] || LastStart(start, max, |m.keys|) < |m.values|
  }

  /** A numbered part of `m`. */
  ghost predicate PartOf(c: Message, m: Message, sequence: int, last: bool) {
    c == m.(keys := c.keys, values := c.values, sequence := Some(sequence), lastMessage := Some(last))
  }

  ghost predicate AreChunks(cs: seq<Message>, m: Message, sequence: int, ends: bool) {
    && cs != []
    && forall i :: 0 <= i < |cs| ==> PartOf(cs[i], m, sequence + i, ends && i == |cs| - 1)
  }

  lemma NextChunks(c: Message, cs: seq<Message>, m: Message, sequence: int, ends: bool)
    requires PartOf(c, m, sequence, false) && AreChunks(cs, m, sequence + 1, ends)
    ensures AreChunks([c] + cs, m, sequence, ends)
  {
    var all := [c] + cs;
    forall i | 0 <= i < |all|
      ensures PartOf(all[i], m, sequence + i, ends && i == |all| - 1)
    {
      if i != 0 {
        assert PartOf(cs[i - 1], m, sequence + 1 + (i - 1), ends && i - 1 == |cs| - 1);
      }
    }
  }

  lemma {:induction false} ChunksHold(m: Message, start: nat, sequence: int, max: int)
    requires 1 <= max && Continues(m, start)
    ensures var cs := ChunksFrom(m, start, sequence, max);
      && AreChunks(cs, m, sequence, ReachesEnd(m, start, max))
      && (ReachesEnd(m, start, max) ==>
            AllKeys(cs) == m.keys[start..] && AllValues(cs) == Slice(m.values, start, |m.keys|))
    decreases |m.keys| - start
  {
    var end := Min(start + max, |m.keys|);
    var c, rest := ChunkAt(m, start, end, sequence), ChunksFrom(m, end, sequence + 1, max);
    AllSplits(c, rest);
    assert ChunksFrom(m, start, sequence, max) == [c] + rest;
    if Continues(m, end) {
      ChunksHold(m, end, sequence + 1, max);
      assert ReachesEnd(m, start, max) == ReachesEnd(m, end, max) && c.lastMessage == Some(false);
      SlicesJoin(m.keys, start, end, |m.keys|);
      SlicesJoin(m.values, start, end, |m.keys|);
      WholeSlice(m.keys, start);
      WholeSlice(m.keys, end);
      hide ChunksFrom, LastStart, ReachesEnd, Slice, AllKeys, AllValues;
      NextChunks(c, rest, m, sequence, ReachesEnd(m, end, max));
    } else {
      LastChunkHolds(m, start, sequence, max);
      hide ChunksFrom, LastStart, ReachesEnd, Slice;
      assert [c] + rest == [c] && rest == [];
    }
  }

  lemma WholeSlice<T>(s: seq<T>, start: nat)
    requires start <= |s|
    ensures Slice(s, start, |s|) == s[start..]
  {
  }

  /** The chunk after which the loop ends: it is marked last, or the values have run out before the keys. */
  lemma LastChunkHolds(m: Message, start: nat, sequence: int, max: int)
    requires 1 <= max && Continues(m, start) && !Continues(m, Min(start + max, |m.keys|))
    ensures var c := ChunkAt(m, start, Min(start + max, |m.keys|), sequence);
      && ChunksFrom(m, start, sequence, max) == [c]
      && AreChunks([c], m, sequence, ReachesEnd(m, start, max))
      && (ReachesEnd(m, start, max) ==> c.keys == m.keys[start..] && c.values == Slice(m.values, start, |m.keys|))
      && AllKeys([c]) == c.keys && AllValues([c]) == c.values
  {
    var c := ChunkAt(m, start, Min(start + max, |m.keys|), sequence);
    LastStartBounds(start, max, |m.keys|);
    AllSplits(c, []);
    assert [c] + [] == [c] && AllKeys([]) == [] && AllValues([]) == [];
    hide AllKeys, AllValues;
  }

  lemma SlicesJoin<T>(s: seq<T>, a: int, b: int, c: int)
    requires 0 <= a <= b <= c
    ensures Slice(s, a, b) + Slice(s, b, c) == Slice(s, a, c)
  {
  }

  lemma {:induction false} LastStartBounds(start: nat, max: int, length: nat)
    requires 1 <= max && start < length
    ensures start <= LastStart(start, max, length) < length
    ensures start + max < length ==> start + max <= LastStart(start, max, length)
    decreases length - start
  {
    if start + max < length {
      LastStartBounds(start + max, max, length);
    }
  }

  // ---------- any order, with repeats ----------

  ghost function Delivered(cs: seq<Message>, order: seq<int>): Pending
    requires Positions(order, |cs|)
  {
    if order == [] then NEW_PENDING
    else Accepted(Delivered(cs, order[..|order| - 1]), cs[order[|order| - 1]])
  }

  /** The positions delivered so far. */
  ghost function Arrived(order: seq<int>): set<int> {
    set i | 0 <= i < |order| :: order[i]
  }

  /** What is pending after some of the chunks: exactly these, and the result once all are there. */
  ghost predicate Holds(p: Pending, cs: seq<Message>, m: Message, ends: bool, arrived: set<int>) {
    && arrived <= Range(|cs|)
    && (p.result.None? ==>
          && p.messages.Keys == arrived
          && (forall k :: k in p.messages ==> p.messages[k] == cs[k])
          && p.endSeq == (if ends && |cs| - 1 in arrived then |cs| - 1 else -1))
    && (p.result.Some? <==> ends && arrived == Range(|cs|))
    && (p.result.Some? ==>
          p.result.value == m.(keys := AllKeys(cs), values := AllValues(cs), sequence := None, lastMessage := None))
  }

  lemma {:induction false} AssembledAll(messages: map<int, Message>, cs: seq<Message>, n: nat)
    requires n <= |cs| && forall k :: 0 <= k < n ==> k in messages && messages[k] == cs[k]
    ensures KeysOf(messages, n) == AllKeys(cs[..n]) && ValuesOf(messages, n) == AllValues(cs[..n])
  {
    if n != 0 {
      AssembledAll(messages, cs, n - 1);
      assert cs[..n][..n - 1] == cs[..n - 1];
    }
  }

  /** All positions are in exactly if there are as many as chunks. */
  lemma AllInWhenCounted(messages: map<int, Message>, n: nat)
    requires messages.Keys <= Range(n)
    ensures |messages| == n <==> messages.Keys == Range(n)
  {
    RangeSize(n);
    SubsetSize(messages.Keys, Range(n));
    assert |messages| == |messages.Keys|;
  }

  /** With all chunks in, the assembly is the message the chunks were cut from. */
  lemma AssemblyRestores(messages: map<int, Message>, cs: seq<Message>, m: Message, ends: bool)
    requires AreChunks(cs, m, 0, ends) && 2 <= |cs|
    requires messages.Keys == Range(|cs|) && forall k :: k in messages ==> messages[k] == cs[k]
    ensures 0 in messages
    ensures Assembled(messages, |cs|) ==
            m.(keys := AllKeys(cs), values := AllValues(cs), sequence := None, lastMessage := None)
  {
    assert 0 in Range(|cs|) && PartOf(cs[0], m, 0, ends && 0 == |cs| - 1);
    AssembledAll(messages, cs, |cs|);
    assert cs[..|cs|] == cs;
  }

  lemma CompleteHolds(messages: map<int, Message>, endSeq: int, cs: seq<Message>, m: Message, ends: bool, c: Message)
    requires AreChunks(cs, m, 0, ends) && 2 <= |cs|
    requires messages.Keys <= Range(|cs|) && forall k :: k in messages ==> messages[k] == cs[k]
    requires endSeq == if ends && |cs| - 1 in messages then |cs| - 1 else -1
    ensures Holds(Complete(messages, endSeq, c), cs, m, ends, messages.Keys)
  {
    AllInWhenCounted(messages, |cs|);
    assert |cs| - 1 in Range(|cs|) && 0 in Range(|cs|);
    if messages.Keys == Range(|cs|) {
      AssemblyRestores(messages, cs, m, ends);
    }
    hide AreChunks, Assembled, AllKeys, AllValues, Range;
  }

  lemma AcceptHolds(p: Pending, cs: seq<Message>, m: Message, ends: bool, arrived: set<int>, i: int)
    requires AreChunks(cs, m, 0, ends) && 2 <= |cs| && 0 <= i < |cs| && Holds(p, cs, m, ends, arrived)
    ensures Holds(Accepted(p, cs[i]), cs, m, ends, arrived + {i})
  {
    assert PartOf(cs[i], m, i, ends && i == |cs| - 1);
    hide Complete, AllKeys, AllValues, AreChunks;
    assert i in Range(|cs|);
    if p.result.Some? {
      assert arrived + {i} == arrived;
    } else {
      var messages := p.messages[i := cs[i]];
      assert messages.Keys == arrived + {i};
      CompleteHolds(messages, if ends && |cs| - 1 in messages then |cs| - 1 else -1, cs, m, ends, cs[i]);
    }
  }

  lemma {:induction false} DeliveredHolds(cs: seq<Message>, m: Message, ends: bool, order: seq<int>)
    requires AreChunks(cs, m, 0, ends) && 2 <= |cs| && Positions(order, |cs|)
    ensures Holds(Delivered(cs, order), cs, m, ends, Arrived(order))
  {
    hide AreChunks, Accepted, Holds;
    if order == [] {
      NothingHolds(cs, m, ends);
      assert Arrived(order) == {};
    } else {
      var n := |order| - 1;
      DeliveredHolds(cs, m, ends, order[..n]);
      AcceptHolds(Delivered(cs, order[..n]), cs, m, ends, Arrived(order[..n]), order[n]);
      ArrivedGrows(order);
    }
  }

  lemma NothingHolds(cs: seq<Message>, m: Message, ends: bool)
    requires cs != []
    ensures Holds(NEW_PENDING, cs, m, ends, {})
  {
    assert 0 in Range(|cs|);
  }

  lemma ArrivedGrows(order: seq<int>)
    requires order != []
    ensures Arrived(order) == Arrived(order[..|order| - 1]) + {order[|order| - 1]}
  {
    var n := |order| - 1;
    forall x
      ensures x in Arrived(order) <==> x in Arrived(order[..n]) + {order[n]}
    {
      if x in Arrived(order) {
        var i :| 0 <= i < |order| && order[i] == x;
        assert i < n ==> order[..n][i] == x;
      }
      if x in Arrived(order[..n]) {
        var i :| 0 <= i < n && order[..n][i] == x;
        assert order[i] == x;
      }
    }
  }

  /** Values go with keys: there are none, or one for each key. */
  predicate Paired(m: Message) {
    m.values == [] || |m.values| == |m.keys|
  }

  /** The chunks of a response, delivered in any order and any number of times, give the response back,
      exactly when the last missing one arrives. */
  lemma ResponseRoundTrip(m: Message, maxKeys: int, maxValues: int, order: seq<int>)
    requires 1 <= maxKeys && 1 <= maxValues && Paired(m) && m.sequence == None && m.lastMessage == None
    requires Positions(order, |Chunks(m, maxKeys, maxValues)|)
    ensures var cs := Chunks(m, maxKeys, maxValues);
      && (|cs| == 1 ==> cs == [m])
      && (1 < |cs| ==>
            && (Delivered(cs, order).result.Some? <==> Arrived(order) == Range(|cs|))
            && (Delivered(cs, order).result.Some? ==> Delivered(cs, order).result.value == m))
  {
    if NeedsChunks(m, maxKeys, maxValues) {
      var max := LimitFor(m, maxKeys, maxValues);
      ChunksHold(m, 0, 0, max);
      LastStartBounds(0, max, |m.keys|);
      SeveralChunks(m, max);
      DeliveredHolds(Chunks(m, maxKeys, maxValues), m, true, order);
    }
  }

  lemma SeveralChunks(m: Message, max: int)
    requires 1 <= max < |m.keys| && Paired(m)
    ensures 2 <= |ChunksFrom(m, 0, 0, max)|
  {
    assert Continues(m, max);
    assert ChunksFrom(m, max, 1, max) != [];
  }

  /** Without the pairing, what exactly comes back of a message cut into several chunks: the message, if the
      values reach into the last slice and not beyond the keys; otherwise not even all chunks restore it. */
  lemma RestoredExactly(m: Message, max: int, order: seq<int>)
    requires 1 <= max && m.keys != [] && m.sequence == None && m.lastMessage == None
    requires var cs := ChunksFrom(m, 0, 0, max); 2 <= |cs| && Positions(order, |cs|) && Arrived(order) == Range(|cs|)
    ensures Delivered(ChunksFrom(m, 0, 0, max), order).result == Some(m)
            <==> ReachesEnd(m, 0, max) && |m.values| <= |m.keys|
  {
    var cs := ChunksFrom(m, 0, 0, max);
    ChunksHold(m, 0, 0, max);
    DeliveredHolds(cs, m, ReachesEnd(m, 0, max), order);
    WholeSlices(m);
    hide ChunksFrom, Delivered, AllKeys, AllValues, AreChunks, LastStart, Range, Arrived, Slice;
  }

  lemma WholeSlices(m: Message)
    ensures m.keys[0..] == m.keys
    ensures Slice(m.values, 0, |m.keys|) == m.values <==> |m.values| <= |m.keys|
  {
  }
}
