/** Splitting an append request into chunks and putting the chunks together again. */
module AppendEntriesRequests {
  import opened Messages

  /** What all chunks of one request share. */
  datatype Header = Header(
    requestId: RequestId,
    peerId: PeerId,
    leaderId: PeerId,
    leaderCommit: int,
    leaderNextIndex: int,
    prevLogIndex: int,
    prevLogTerm: int,
    term: int)
  {
    function Chunk(sequence: int, lastMessage: bool, entry: Option<Message>): AppendChunk {
      AppendChunk(requestId, peerId, leaderId, leaderCommit, leaderNextIndex,
                  prevLogIndex, prevLogTerm, term, sequence, lastMessage, entry)
    }

    /** The chunk that carries the entry at position `i` of a request for `es`. */
    function EntryChunk(es: seq<Message>, i: int): AppendChunk
      requires 0 <= i < |es|
    {
      Chunk(i, i == |es| - 1, Some(es[i]))
    }
  }

  datatype Assembler = Assembler(
    requestId: RequestId,
    peerId: Option<PeerId>,
    term: int,
    leaderId: Option<PeerId>,
    prevLogIndex: int,
    prevLogTerm: int,
    leaderCommit: int,
    leaderNextIndex: int,
    entries: map<int, Message>,
    ready: bool,
    endSeq: int,
    entriesList: seq<Message>)

  function NewAssembler(requestId: RequestId): Assembler {
    Assembler(requestId, None, -1, None, -1, -1, -1, -1, map[], false, -1, [])
  }

  function OrElse<T>(o: Option<T>, x: T): Option<T> { if o.None? then Some(x) else o }

  function IfUnset(old_: int, x: int): int { if old_ < 0 then x else old_ }

  function TakeSender(a: Assembler, c: AppendChunk): Assembler {
    a.(peerId := OrElse(a.peerId, c.peerId),
       term := IfUnset(a.term, c.term),
       leaderId := OrElse(a.leaderId, c.leaderId))
  }

  function TakeIndexes(a: Assembler, c: AppendChunk): Assembler {
    a.(prevLogIndex := IfUnset(a.prevLogIndex, c.prevLogIndex),
       prevLogTerm := IfUnset(a.prevLogTerm, c.prevLogTerm),
       leaderCommit := IfUnset(a.leaderCommit, c.leaderCommit),
       leaderNextIndex := IfUnset(a.leaderNextIndex, c.leaderNextIndex))
  }

  function TakeHeader(a: Assembler, c: AppendChunk): Assembler {
    TakeIndexes(TakeSender(a, c), c)
  }

  function TakeEntry(a: Assembler, c: AppendChunk): Assembler {
    if c.entry.Some? then a.(entries := a.entries[c.sequence := c.entry.value]) else a
  }

  /** The messages stored at positions [0, n), missing positions skipped. */
  function ListOf(entries: map<int, Message>, n: nat): seq<Message> {
    if n == 0 then []
    else ListOf(entries, n - 1) + (if n - 1 in entries then [entries[n - 1]] else [])
  }

  function IsReady(ready: bool, size: nat, endSeq: int): bool {
    if endSeq == 0 then true else if 0 < endSeq then size - 1 == endSeq else ready
  }

  function TakeEnd(a: Assembler, c: AppendChunk): Assembler {
    var endSeq := if c.lastMessage then c.sequence else a.endSeq;
    var ready := IsReady(a.ready, |a.entries|, endSeq);
    a.(endSeq := endSeq, ready := ready,
       entriesList := if ready then ListOf(a.entries, |a.entries|) else a.entriesList)
  }

  /** Whether adding the chunk throws: a foreign request id, or a position filled a second time. */
  predicate Throws(a: Assembler, c: AppendChunk) {
    c.requestId != a.requestId || (c.entry.Some? && c.sequence in a.entries)
  }

  /** The assembler after `add`, also when `add` throws: a second entry for a position has been
      stored by then. */
  function AddChunk(a: Assembler, c: AppendChunk): Assembler {
    if c.requestId != a.requestId then a
    else
      var b := TakeEntry(TakeHeader(a, c), c);
      if Throws(a, c) then b else TakeEnd(b, c)
  }

  class RaftAppendEntriesRequest {
    const requestId: RequestId
    var peerId: Option<PeerId>
    var term: int
    var leaderId: Option<PeerId>
    var prevLogIndex: int
    var prevLogTerm: int
    var leaderCommit: int
    var leaderNextIndex: int
    var entries: map<int, Message>
    var ready: bool
    var endSeq: int
    var entriesList: seq<Message>

    ghost function State(): Assembler
      reads this
    {
      Assembler(requestId, peerId, term, leaderId, prevLogIndex, prevLogTerm,
                leaderCommit, leaderNextIndex, entries, ready, endSeq, entriesList)
    }

    constructor (requestId: RequestId)
      ensures State() == NewAssembler(requestId)
    {
      this.requestId := requestId;
      peerId, term, leaderId, prevLogIndex, prevLogTerm := None, -1, None, -1, -1;
      leaderCommit, leaderNextIndex, entries := -1, -1, map[];
      ready, endSeq, entriesList := false, -1, [];
    }

    /** Returns whether the chunk was taken; `false` stands for the exception. */
    method Add(c: AppendChunk) returns (taken: bool)
      modifies this
      ensures State() == AddChunk(old(State()), c)
      ensures taken <==> !Throws(old(State()), c)
    {
      if c.requestId != requestId {
        return false;
      }
      AddHeader(c);
      if c.entry.Some? {
        var removed := c.sequence in entries;
        entries := entries[c.sequence := c.entry.value];
        if removed {
          return false;
        }
      }
      AddEnd(c);
      return true;
    }

    /** The first chunk decides every header field; a negative field counts as not yet set. */
    method AddHeader(c: AppendChunk)
      modifies this
      ensures State() == TakeHeader(old(State()), c)
    {
      AddSender(c);
      AddIndexes(c);
    }

    method AddSender(c: AppendChunk)
      modifies this`peerId, this`term, this`leaderId
      ensures State() == TakeSender(old(State()), c)
    {
      if peerId.None? {
        peerId := Some(c.peerId);
      }
      if term < 0 {
        term := c.term;
      }
      if leaderId.None? {
        leaderId := Some(c.leaderId);
      }
    }

    method AddIndexes(c: AppendChunk)
      modifies this`prevLogIndex, this`prevLogTerm, this`leaderCommit, this`leaderNextIndex
      ensures State() == TakeIndexes(old(State()), c)
    {
      if prevLogIndex < 0 {
        prevLogIndex := c.prevLogIndex;
      }
      if prevLogTerm < 0 {
        prevLogTerm := c.prevLogTerm;
      }
      if leaderCommit < 0 {
        leaderCommit := c.leaderCommit;
      }
      if leaderNextIndex < 0 {
        leaderNextIndex := c.leaderNextIndex;
      }
    }

    method AddEnd(c: AppendChunk)
      modifies this
      ensures State() == TakeEnd(old(State()), c)
    {
      if c.lastMessage {
        endSeq := c.sequence;
      }
      if endSeq == 0 {
        ready := true;
      } else if 0 < endSeq {
        ready := |entries| - 1 == endSeq;
      }
      if ready {
        entriesList := BuildList();
      }
    }

    method BuildList() returns (list: seq<Message>)
      ensures list == ListOf(entries, |entries|)
    {
      list := [];
      for index := 0 to |entries|
        invariant list == ListOf(entries, index)
      {
        if index in entries {
          list := list + [entries[index]];
        }
      }
    }
  }

  // ---------- reassembly ----------

  function Range(n: nat): (r: set<int>)
    ensures forall k :: k in r <==> 0 <= k < n
  {
    if n == 0 then {} else Range(n - 1) + {n - 1}
  }

  lemma {:induction false} RangeSize(n: nat)
    ensures |Range(n)| == n
  {
    if n != 0 {
      RangeSize(n - 1);
      assert Range(n) == Range(n - 1) + {n - 1};
    }
  }

  lemma {:induction false} ListOfFull(entries: map<int, Message>, n: nat, es: seq<Message>)
    requires n <= |es|
    requires forall k :: 0 <= k < n ==> k in entries && entries[k] == es[k]
    ensures ListOf(entries, n) == es[..n]
  {
    if n != 0 {
      ListOfFull(entries, n - 1, es);
      assert es[..n] == es[..n - 1] + [es[n - 1]];
    }
  }

  /** How many positions below `n` are filled. */
  ghost function Filled(entries: map<int, Message>, n: int): nat {
    |set k | k in entries && 0 <= k < n|
  }

  lemma FilledNext(entries: map<int, Message>, n: nat)
    ensures Filled(entries, 0) == 0
    ensures Filled(entries, n + 1) == Filled(entries, n) + if n in entries then 1 else 0
  {
    assert (set k | k in entries && 0 <= k < 0) == {};
    var below, upTo := set k | k in entries && 0 <= k < n, set k | k in entries && 0 <= k < n + 1;
    assert upTo == if n in entries then below + {n} else below;
  }

  /** The list holds the filled positions, each once, in order; an empty one is skipped. */
  lemma {:induction false} ListedInOrder(entries: map<int, Message>, n: nat)
    ensures |ListOf(entries, n)| == Filled(entries, n)
    ensures forall k :: 0 <= k < n && k in entries ==>
              Filled(entries, k) < Filled(entries, n) && ListOf(entries, n)[Filled(entries, k)] == entries[k]
  {
    hide Filled;
    FilledNext(entries, if n == 0 then 0 else n - 1);
    if n != 0 {
      ListedInOrder(entries, n - 1);
    }
  }

  /** Every header field stays as the first chunk with that field set it; a negative number counts as not set. */
  lemma FirstHeaderStays(id: RequestId, c: AppendChunk, d: AppendChunk)
    ensures var a := TakeHeader(TakeHeader(NewAssembler(id), c), d);
      && a.peerId == Some(c.peerId) && a.leaderId == Some(c.leaderId)
      && a.term == (if 0 <= c.term then c.term else d.term)
      && a.prevLogIndex == (if 0 <= c.prevLogIndex then c.prevLogIndex else d.prevLogIndex)
      && a.prevLogTerm == (if 0 <= c.prevLogTerm then c.prevLogTerm else d.prevLogTerm)
      && a.leaderCommit == (if 0 <= c.leaderCommit then c.leaderCommit else d.leaderCommit)
      && a.leaderNextIndex == (if 0 <= c.leaderNextIndex then c.leaderNextIndex else d.leaderNextIndex)
  {
  }

  /** Any chunk, of whatever request: one that does not throw makes the request ready exactly if the end mark is
      known and is 0 or as many entries are there as it asks for; the list then holds the stored entries up to their
      number, in order of position. */
  lemma ReadyExactly(a: Assembler, c: AppendChunk)
    requires !a.ready && c.requestId == a.requestId && (c.entry.None? || c.sequence !in a.entries)
    ensures !Throws(a, c)
    ensures var b, end := AddChunk(a, c), if c.lastMessage then c.sequence else a.endSeq;
      && b.endSeq == end
      && b.entries == (if c.entry.Some? then a.entries[c.sequence := c.entry.value] else a.entries)
      && (b.ready <==> end == 0 || (0 < end && |b.entries| == end + 1))
      && (b.ready && (forall k :: 0 <= k < |b.entries| ==> k in b.entries) ==>
            && |b.entriesList| == |b.entries|
            && forall k :: 0 <= k < |b.entries| ==> b.entriesList[k] == b.entries[k])
  {
    var b := AddChunk(a, c);
    if b.ready && forall k :: 0 <= k < |b.entries| ==> k in b.entries {
      var es := seq(|b.entries|, k requires 0 <= k < |b.entries| => b.entries[k]);
      ListOfFull(b.entries, |b.entries|, es);
      assert es[..|es|] == es;
    }
  }

  ghost predicate SameHeader(a: Assembler, h: Header) {
    && a.peerId == Some(h.peerId) && a.term == h.term && a.leaderId == Some(h.leaderId)
    && a.prevLogIndex == h.prevLogIndex && a.prevLogTerm == h.prevLogTerm
    && a.leaderCommit == h.leaderCommit && a.leaderNextIndex == h.leaderNextIndex
  }

  /** `a` holds the entries of the request (h, es) at the positions in its `entries` and nothing
      else, and is ready exactly when it holds them all. */
  ghost predicate Gathering(a: Assembler, h: Header, es: seq<Message>) {
    && a.requestId == h.requestId
    && a.entries.Keys <= Range(|es|)
    && (forall k :: k in a.entries ==> a.entries[k] == es[k])
    && a.endSeq == (if |es| - 1 in a.entries then |es| - 1 else -1)
    && (a.ready <==> |a.entries| == |es|)
    && (a.ready ==> a.entriesList == es)
    && if a.entries.Keys == {} then a == NewAssembler(h.requestId) else SameHeader(a, h)
  }

  lemma NewGathers(h: Header, es: seq<Message>)
    requires es != []
    ensures Gathering(NewAssembler(h.requestId), h, es)
  {
  }

  /** One more chunk of the request: the assembler stays true to it, and throws only on a repeat. */
  lemma AddGathers(a: Assembler, h: Header, es: seq<Message>, i: int)
    requires 0 <= i < |es| && Gathering(a, h, es)
    ensures var c := h.EntryChunk(es, i);
      && Gathering(AddChunk(a, c), h, es)
      && (Throws(a, c) <==> i in a.entries)
      && AddChunk(a, c).entries.Keys == a.entries.Keys + {i}
      && (Throws(a, c) ==> AddChunk(a, c) == a)
  {
    if i in a.entries {
      AddRepeat(a, h, es, i);
    } else {
      AddNew(a, h, es, i);
    }
  }

  lemma HeaderStays(a: Assembler, h: Header, es: seq<Message>, i: int)
    requires 0 <= i < |es| && Gathering(a, h, es)
    ensures SameHeader(TakeHeader(a, h.EntryChunk(es, i)), h)
    ensures a.entries.Keys != {} ==> TakeHeader(a, h.EntryChunk(es, i)) == a
  {
  }

  lemma AddRepeat(a: Assembler, h: Header, es: seq<Message>, i: int)
    requires 0 <= i < |es| && Gathering(a, h, es) && i in a.entries
    ensures AddChunk(a, h.EntryChunk(es, i)) == a
  {
    HeaderStays(a, h, es, i);
    assert a.entries[i := es[i]] == a.entries;
  }

  lemma AddNew(a: Assembler, h: Header, es: seq<Message>, i: int)
    requires 0 <= i < |es| && Gathering(a, h, es) && i !in a.entries
    ensures var b := AddChunk(a, h.EntryChunk(es, i));
      Gathering(b, h, es) && b.entries == a.entries[i := es[i]]
  {
    var c := h.EntryChunk(es, i);
    HeaderStays(a, h, es, i);
    var mid := TakeEntry(TakeHeader(a, c), c);
    var b := TakeEnd(mid, c);
    var entries := a.entries[i := es[i]];
    assert mid.entries == entries;
    FullWhenCounted(a.entries, entries, es, i);
    assert SameHeader(mid, h) && SameHeader(b, h);
    hide SameHeader, Range, TakeHeader, ListOf;
  }

  /** Positions below `|es|`: as many entries as the request has means all of them. */
  lemma FullWhenCounted(before: map<int, Message>, entries: map<int, Message>, es: seq<Message>, i: int)
    requires 0 <= i < |es| && i !in before && before.Keys <= Range(|es|) && entries == before[i := es[i]]
    requires forall k :: k in before ==> before[k] == es[k]
    ensures |before| < |es| && |entries| == |before| + 1 && entries.Keys <= Range(|es|) && entries.Keys != {}
    ensures forall k :: k in entries ==> entries[k] == es[k]
    ensures |entries| == |es| ==> |es| - 1 in entries && ListOf(entries, |entries|) == es
  {
    assert entries.Keys == before.Keys + {i} && i in Range(|es|);
    assert |entries| == |entries.Keys| && |before| == |before.Keys|;
    CountsWithin(entries.Keys, |es|);
    if |entries| == |es| {
      assert |es| - 1 in Range(|es|);
      hide Range;
      ListOfFull(entries, |es|, es);
      assert es[..|es|] == es;
    }
  }

  lemma CountsWithin(keys: set<int>, n: nat)
    requires keys <= Range(n)
    ensures |keys| <= n && (|keys| == n ==> keys == Range(n))
  {
    RangeSize(n);
    SubsetSize(keys, Range(n));
  }

  ghost predicate Positions(order: seq<int>, n: nat) {
    forall j :: 0 <= j < |order| ==> 0 <= order[j] < n
  }

  ghost function Deliver(h: Header, es: seq<Message>, order: seq<int>): Assembler
    requires Positions(order, |es|)
  {
    if order == [] then NewAssembler(h.requestId)
    else
      var n := |order| - 1;
      AddChunk(Deliver(h, es, order[..n]), h.EntryChunk(es, order[n]))
  }

  function Members(order: seq<int>): set<int> {
    set x | x in order
  }

  lemma {:induction false} DeliverGathers(h: Header, es: seq<Message>, order: seq<int>)
    requires es != []
    requires Positions(order, |es|)
    ensures Gathering(Deliver(h, es, order), h, es)
    ensures Deliver(h, es, order).entries.Keys == Members(order)
  {
    hide AddChunk, Throws, Gathering;
    if order == [] {
      NewGathers(h, es);
    } else {
      var n := |order| - 1;
      DeliverGathers(h, es, order[..n]);
      AddGathers(Deliver(h, es, order[..n]), h, es, order[n]);
      MembersGrow(order);
    }
  }

  lemma MembersGrow(order: seq<int>)
    requires order != []
    ensures Members(order) == Members(order[..|order| - 1]) + {order[|order| - 1]}
  {
    assert order == order[..|order| - 1] + [order[|order| - 1]];
  }

  ghost predicate Distinct(order: seq<int>) {
    forall i, j :: 0 <= i < j < |order| ==> order[i] != order[j]
  }

  lemma {:induction false} DistinctCount(order: seq<int>)
    requires Distinct(order)
    ensures |Members(order)| == |order|
  {
    if order != [] {
      var n := |order| - 1;
      DistinctCount(order[..n]);
      MembersGrow(order);
    }
  }

  /** The chunks of a request for k >= 1 entries, delivered in any order without repeats, are all
      taken; the request is ready exactly when the last of them is in, and then lists the entries
      in the leader's order under the leader's header. */
  lemma RoundTrip(h: Header, es: seq<Message>, order: seq<int>)
    requires es != []
    requires Positions(order, |es|)
    requires Distinct(order)
    ensures var a := Deliver(h, es, order);
      && (a.ready <==> |order| == |es|)
      && (a.ready ==> a.entriesList == es && SameHeader(a, h))
      && (forall i :: 0 <= i < |es| && i !in order ==> !Throws(a, h.EntryChunk(es, i)))
  {
    DeliverGathers(h, es, order);
    DistinctCount(order);
    var a := Deliver(h, es, order);
    assert |a.entries| == |a.entries.Keys|;
    forall i | 0 <= i < |es| && i !in order
      ensures !Throws(a, h.EntryChunk(es, i))
    {
      assert i !in a.entries.Keys;
    }
  }
}
