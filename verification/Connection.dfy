/**
 A storage's connection to the log: what it buffers while it joins, how it catches up from a
 snapshot and the log, and which commits it hands to the storage.
 */
module Connections {
  import opened Messages
  import opened RaftLogs
  import Storage = MemoryStoredRaftLogs

  datatype Kind = Hello(source: PeerId) | StateNotification(source: PeerId) | Command

  /** A message with the commit index it was committed at, if it came through the log. */
  datatype Delivery = Delivery(message: Message, commitIndex: Option<int>)

  /** What the storage gets to see, in order: a snapshot to restore, or a message to handle. */
  datatype Emitted<S> = Restored(appliedIndex: int, snapshot: S) | Handled(delivery: Delivery)

  datatype Snapshot<S> = Snapshot(appliedCommitIndex: int, state: S)

  datatype Connection<S> = Connection(
    closed: bool,
    joined: bool,
    appliedCommitIndex: int,
    bufferedMessages: seq<Delivery>,
    emitted: seq<Emitted<S>>)

  function NewConnection<S>(): Connection<S> { Connection(false, false, -1, [], []) }

  /** Whether a message is passed on to the storage once the commit gate let it through. */
  predicate Emits(kind: Kind, joined: bool, localPeerId: PeerId) {
    match kind
    case Hello(source) => source != localPeerId
    case StateNotification(source) => joined || source != localPeerId
    case Command => joined
  }

  function Emit<S>(c: Connection<S>, kind: Kind, d: Delivery, localPeerId: PeerId): Connection<S> {
    if Emits(kind, c.joined, localPeerId) then c.(emitted := c.emitted + [Handled(d)]) else c
  }

  function Accepted<S>(c: Connection<S>, kind: Kind, d: Delivery, localPeerId: PeerId): Connection<S> {
    if c.closed then c
    else if !c.joined then
      if kind.Command? then c.(bufferedMessages := c.bufferedMessages + [d])
      else Emit(c, kind, Delivery(d.message, None), localPeerId)
    else if d.commitIndex.None? then Emit(c, kind, d, localPeerId)
    else if d.commitIndex.value <= c.appliedCommitIndex then c
    else Emit(c.(appliedCommitIndex := d.commitIndex.value), kind, d, localPeerId)
  }

  /** The log entries of one storage as deliveries. */
  function Deliveries(es: seq<LogEntry>, storageId: StorageId): seq<Delivery> {
    if es == [] then []
    else
      var before, e := Deliveries(es[..|es| - 1], storageId), es[|es| - 1];
      if e.entry.storageId == storageId then before + [Delivery(e.entry, Some(e.index))] else before
  }

  function AcceptAll<S>(
      c: Connection<S>, kind: Message -> Kind, ds: seq<Delivery>, localPeerId: PeerId): (r: Connection<S>)
  {
    if ds == [] then c
    else
      var d := ds[|ds| - 1];
      Accepted(AcceptAll(c, kind, ds[..|ds| - 1], localPeerId), kind(d.message), d, localPeerId)
  }

  function Restore<S>(c: Connection<S>, snapshot: Option<Snapshot<S>>): Connection<S> {
    if snapshot.None? then c
    else c.(appliedCommitIndex := snapshot.value.appliedCommitIndex,
            emitted := c.emitted + [Restored(snapshot.value.appliedCommitIndex, snapshot.value.state)])
  }

  function ReplayEnd(log: LogState): int { Min(Min(log.commitIndex + 1, log.nextIndex), log.nextIndex) }

  /** The committed entries of the storage from `applied` on, `applied` itself included. */
  function Replay(log: LogState, applied: int, storageId: StorageId): seq<Delivery> {
    if applied < log.commitIndex
    then Deliveries(Collect(log.entries, applied, ReplayEnd(log)), storageId)
    else []
  }

  /** The buffer is drained past the commit gate; an entry below the applied index is skipped. */
  function Drain<S>(c: Connection<S>, kind: Message -> Kind, ds: seq<Delivery>, localPeerId: PeerId): Connection<S> {
    if ds == [] then c
    else
      var before, d := Drain(c, kind, ds[..|ds| - 1], localPeerId), ds[|ds| - 1];
      if d.commitIndex.Some? && d.commitIndex.value < before.appliedCommitIndex then before
      else Accepted(before, kind(d.message), d, localPeerId)
  }

  /** Catching up, once the snapshot (or its absence) is known. */
  function Joined<S>(
      c: Connection<S>, snapshot: Option<Snapshot<S>>, log: LogState,
      kind: Message -> Kind, storageId: StorageId, localPeerId: PeerId): Connection<S>
  {
    var r := Restore(c.(joined := false), snapshot);
    var b := AcceptAll(r, kind, Replay(log, r.appliedCommitIndex, storageId), localPeerId);
    Drain(b.(bufferedMessages := [], joined := true), kind, b.bufferedMessages, localPeerId)
  }

  /** The public join: a connection that has joined returns at once. */
  function JoinedOnce<S>(
      c: Connection<S>, snapshot: Option<Snapshot<S>>, log: LogState,
      kind: Message -> Kind, storageId: StorageId, localPeerId: PeerId): Connection<S>
  {
    if c.joined then c else Joined(c, snapshot, log, kind, storageId, localPeerId)
  }

  class HamokConnection<S> {
    const storageId: StorageId
    const localPeerId: PeerId
    const kind: Message -> Kind
    var closed: bool
    var joined: bool
    var appliedCommitIndex: int
    var bufferedMessages: seq<Delivery>
    var emitted: seq<Emitted<S>>

    ghost function Value(): Connection<S>
      reads this
    {
      Connection(closed, joined, appliedCommitIndex, bufferedMessages, emitted)
    }

    constructor (storageId: StorageId, localPeerId: PeerId, kind: Message -> Kind)
      ensures Value() == NewConnection() && this.storageId == storageId && this.localPeerId == localPeerId
      ensures this.kind == kind
    {
      this.storageId, this.localPeerId, this.kind := storageId, localPeerId, kind;
      closed, joined, appliedCommitIndex, bufferedMessages, emitted := false, false, -1, [], [];
    }

    method Close()
      modifies this`closed
      ensures Value() == old(Value()).(closed := true)
    {
      closed := true;
    }

    method Accept(message: Message, commitIndex: Option<int>)
      modifies this
      ensures Value() == Accepted(old(Value()), kind(message), Delivery(message, commitIndex), localPeerId)
    {
      if closed {
        return;
      }
      if !joined {
        match kind(message) {
          case Hello(source) =>
            if source == localPeerId {
              return;
            }
            emitted := emitted + [Handled(Delivery(message, None))];
          case StateNotification(source) =>
            if source == localPeerId {
              return;
            }
            emitted := emitted + [Handled(Delivery(message, None))];
          case Command =>
            bufferedMessages := bufferedMessages + [Delivery(message, commitIndex)];
        }
        return;
      }
      if commitIndex.Some? {
        if commitIndex.value <= appliedCommitIndex {
          return;
        }
        appliedCommitIndex := commitIndex.value;
      }
      match kind(message) {
        case Hello(source) =>
          if source != localPeerId {
            emitted := emitted + [Handled(Delivery(message, commitIndex))];
          }
        case _ =>
          emitted := emitted + [Handled(Delivery(message, commitIndex))];
      }
    }

    /** Joining does nothing for a connection that has joined. */
    method Join(snapshot: Option<Snapshot<S>>, logs: Storage.MemoryStoredRaftLogs)
      modifies this
      ensures Value() == JoinedOnce(old(Value()), snapshot, logs.State(), kind, storageId, localPeerId)
    {
      if joined {
        return;
      }
      CatchUp(snapshot, logs);
    }

    method CatchUp(snapshot: Option<Snapshot<S>>, logs: Storage.MemoryStoredRaftLogs)
      modifies this
      ensures Value() == Joined(old(Value()), snapshot, logs.State(), kind, storageId, localPeerId)
    {
      joined := false;
      if snapshot.Some? {
        emitted := emitted + [Restored(snapshot.value.appliedCommitIndex, snapshot.value.state)];
        appliedCommitIndex := snapshot.value.appliedCommitIndex;
      }
      ghost var restored := Value();
      ghost var replay := Replay(logs.State(), appliedCommitIndex, storageId);
      if appliedCommitIndex < logs.commitIndex {
        var entries := logs.CollectEntries(appliedCommitIndex, Some(Min(logs.commitIndex + 1, logs.nextIndex)));
        BufferEntries(entries);
      }
      assert Value() == AcceptAll(restored, kind, replay, localPeerId);
      var buffered := bufferedMessages;
      bufferedMessages := [];
      joined := true;
      DrainBuffered(buffered);
    }

    method BufferEntries(entries: seq<LogEntry>)
      modifies this
      ensures Value() == AcceptAll(old(Value()), kind, Deliveries(entries, storageId), localPeerId)
    {
      var i := 0;
      while i < |entries|
        invariant 0 <= i <= |entries|
        invariant Value() == AcceptAll(old(Value()), kind, Deliveries(entries[..i], storageId), localPeerId)
      {
        ghost var ds, more := Deliveries(entries[..i], storageId), Deliveries(entries[..i + 1], storageId);
        assert entries[..i + 1][..i] == entries[..i];
        if entries[i].entry.storageId == storageId {
          ghost var d := Delivery(entries[i].entry, Some(entries[i].index));
          assert more == ds + [d] && more[..|more| - 1] == ds && more[|more| - 1] == d;
          Accept(entries[i].entry, Some(entries[i].index));
        } else {
          assert more == ds;
        }
        i := i + 1;
      }
      assert entries[..|entries|] == entries;
    }

    method DrainBuffered(buffered: seq<Delivery>)
      modifies this
      ensures Value() == Drain(old(Value()), kind, buffered, localPeerId)
    {
      var i := 0;
      while i < |buffered|
        invariant 0 <= i <= |buffered|
        invariant Value() == Drain(old(Value()), kind, buffered[..i], localPeerId)
      {
        var d := buffered[i];
        assert buffered[..i + 1][..i] == buffered[..i];
        if !(d.commitIndex.Some? && d.commitIndex.value < appliedCommitIndex) {
          Accept(d.message, d.commitIndex);
        }
        i := i + 1;
      }
      assert buffered[..|buffered|] == buffered;
    }
  }

  // ---------- at most once, in commit order ----------

  /** The commit indices handled since the last restored snapshot, in order. */
  function HandledIndexes<S>(trace: seq<Emitted<S>>): seq<int> {
    if trace == [] then []
    else
      var before, x := trace[..|trace| - 1], trace[|trace| - 1];
      match x
      case Restored(_, _) => []
      case Handled(d) =>
        if d.commitIndex.Some? then HandledIndexes(before) + [d.commitIndex.value] else HandledIndexes(before)
  }

  /** The index the storage's state stood at when it last started from a snapshot. */
  function Base<S>(trace: seq<Emitted<S>>): int {
    if trace == [] then -1
    else
      match trace[|trace| - 1]
      case Restored(s, _) => s
      case Handled(_) => Base(trace[..|trace| - 1])
  }

  ghost predicate Increasing(a: seq<int>) {
    forall i, j :: 0 <= i < j < |a| ==> a[i] < a[j]
  }

  /** Handled since the last snapshot: strictly increasing, above the snapshot, up to the applied index. */
  ghost predicate InCommitOrder<S>(c: Connection<S>) {
    var a := HandledIndexes(c.emitted);
    && Increasing(a) && Base(c.emitted) <= c.appliedCommitIndex
    && forall i :: 0 <= i < |a| ==> Base(c.emitted) < a[i] <= c.appliedCommitIndex
  }

  /** Handling one message more: an uncommitted one, or a commit above the applied index. */
  lemma OneMoreHandled<S>(c: Connection<S>, applied: int, d: Delivery)
    requires InCommitOrder(c)
    requires if d.commitIndex.None? then applied == c.appliedCommitIndex
             else c.appliedCommitIndex < d.commitIndex.value == applied
    ensures InCommitOrder(c.(appliedCommitIndex := applied))
    ensures InCommitOrder(c.(appliedCommitIndex := applied, emitted := c.emitted + [Handled(d)]))
  {
    hide HandledIndexes, Base, Increasing;
    HandledGrows(c.emitted, d);
    if d.commitIndex.Some? {
      IncreasingGrows(HandledIndexes(c.emitted), applied);
    }
  }

  lemma HandledGrows<S>(trace: seq<Emitted<S>>, d: Delivery)
    ensures var longer := trace + [Handled(d)];
      && Base(longer) == Base(trace)
      && HandledIndexes(longer) ==
         if d.commitIndex.None? then HandledIndexes(trace) else HandledIndexes(trace) + [d.commitIndex.value]
  {
    var longer := trace + [Handled(d)];
    assert longer[..|longer| - 1] == trace;
  }

  lemma IncreasingGrows(a: seq<int>, x: int)
    requires Increasing(a) && forall i :: 0 <= i < |a| ==> a[i] < x
    ensures Increasing(a + [x])
  {
  }

  lemma AcceptKeepsOrder<S>(c: Connection<S>, kind: Kind, d: Delivery, localPeerId: PeerId)
    requires InCommitOrder(c)
    ensures InCommitOrder(Accepted(c, kind, d, localPeerId))
    ensures Accepted(c, kind, d, localPeerId).joined == c.joined
  {
    hide HandledIndexes, Base;
    if !c.joined {
      OneMoreHandled(c, c.appliedCommitIndex, Delivery(d.message, None));
    } else if d.commitIndex.None? {
      OneMoreHandled(c, c.appliedCommitIndex, d);
    } else if c.appliedCommitIndex < d.commitIndex.value {
      OneMoreHandled(c, d.commitIndex.value, d);
    }
  }

  lemma {:induction false} AcceptAllKeepsOrder<S>(
      c: Connection<S>, kind: Message -> Kind, ds: seq<Delivery>, localPeerId: PeerId)
    requires InCommitOrder(c)
    ensures InCommitOrder(AcceptAll(c, kind, ds, localPeerId))
  {
    if ds != [] {
      var before, d := ds[..|ds| - 1], ds[|ds| - 1];
      AcceptAllKeepsOrder(c, kind, before, localPeerId);
      AcceptKeepsOrder(AcceptAll(c, kind, before, localPeerId), kind(d.message), d, localPeerId);
    }
  }

  lemma {:induction false} DrainKeepsOrder<S>(
      c: Connection<S>, kind: Message -> Kind, ds: seq<Delivery>, localPeerId: PeerId)
    requires InCommitOrder(c)
    ensures InCommitOrder(Drain(c, kind, ds, localPeerId))
  {
    if ds != [] {
      var before, d := ds[..|ds| - 1], ds[|ds| - 1];
      DrainKeepsOrder(c, kind, before, localPeerId);
      AcceptKeepsOrder(Drain(c, kind, before, localPeerId), kind(d.message), d, localPeerId);
    }
  }

  lemma JoinKeepsOrder<S>(
      c: Connection<S>, snapshot: Option<Snapshot<S>>, log: LogState,
      kind: Message -> Kind, storageId: StorageId, localPeerId: PeerId)
    requires InCommitOrder(c)
    ensures InCommitOrder(Joined(c, snapshot, log, kind, storageId, localPeerId))
  {
    var r := Restore(c.(joined := false), snapshot);
    var replay := Replay(log, r.appliedCommitIndex, storageId);
    AcceptAllKeepsOrder(r, kind, replay, localPeerId);
    var b := AcceptAll(r, kind, replay, localPeerId);
    DrainKeepsOrder(b.(bufferedMessages := [], joined := true), kind, b.bufferedMessages, localPeerId);
  }

  datatype Step<S> =
    | Receives(delivery: Delivery)
    | Joins(snapshot: Option<Snapshot<S>>, log: LogState)
    | Closes

  function Take<S>(
      c: Connection<S>, step: Step<S>, kind: Message -> Kind, storageId: StorageId, localPeerId: PeerId): Connection<S>
  {
    match step
    case Receives(d) => Accepted(c, kind(d.message), d, localPeerId)
    case Joins(snapshot, log) => JoinedOnce(c, snapshot, log, kind, storageId, localPeerId)
    case Closes => c.(closed := true)
  }

  function RunOf<S>(
      steps: seq<Step<S>>, kind: Message -> Kind, storageId: StorageId, localPeerId: PeerId): Connection<S>
  {
    if steps == [] then NewConnection()
    else
      var n := |steps| - 1;
      Take(RunOf(steps[..n], kind, storageId, localPeerId), steps[n], kind, storageId, localPeerId)
  }

  /** Over any run, with any messages in any order, any snapshots and any logs: between two snapshots
      commits are handled in strictly increasing order, so each at most once, and none at or below
      the index of the snapshot. */
  lemma {:induction false} CommitsAreHandledOnce<S>(
      steps: seq<Step<S>>, kind: Message -> Kind, storageId: StorageId, localPeerId: PeerId)
    ensures InCommitOrder(RunOf(steps, kind, storageId, localPeerId))
  {
    if steps != [] {
      var n := |steps| - 1;
      CommitsAreHandledOnce(steps[..n], kind, storageId, localPeerId);
      var c := RunOf(steps[..n], kind, storageId, localPeerId);
      match steps[n]
      case Receives(d) => AcceptKeepsOrder(c, kind(d.message), d, localPeerId);
      case Joins(snapshot, log) => JoinKeepsOrder(c, snapshot, log, kind, storageId, localPeerId);
      case _ =>
    }
  }

  ghost predicate OnlyHandled<S>(trace: seq<Emitted<S>>, from: nat) {
    forall i :: from <= i < |trace| ==> trace[i].Handled?
  }

  /** A connection that has joined never joins again: the loss of the leader makes it call join, which
      returns at once.  No later step restores a snapshot or buffers a message. */
  lemma {:induction false} NeverJoinsAgain<S>(
      steps: seq<Step<S>>, i: nat, kind: Message -> Kind, storageId: StorageId, localPeerId: PeerId)
    requires i <= |steps| && RunOf(steps[..i], kind, storageId, localPeerId).joined
    ensures var before := RunOf(steps[..i], kind, storageId, localPeerId);
      var after := RunOf(steps, kind, storageId, localPeerId);
      && after.joined && after.bufferedMessages == before.bufferedMessages
      && before.emitted <= after.emitted && OnlyHandled(after.emitted, |before.emitted|)
  {
    if i == |steps| {
      assert steps[..i] == steps;
    } else {
      var n := |steps| - 1;
      assert steps[..n][..i] == steps[..i];
      NeverJoinsAgain(steps[..n], i, kind, storageId, localPeerId);
    }
  }

  // ---------- what catching up hands over ----------

  /** The entries of the storage among the committed messages, with an index in [lo, hi). */
  function Entries(history: seq<Message>, storageId: StorageId, lo: nat, hi: nat): seq<Delivery>
    requires hi <= |history|
  {
    if hi <= lo then []
    else
      var before := Entries(history, storageId, lo, hi - 1);
      if history[hi - 1].storageId == storageId then before + [Delivery(history[hi - 1], Some(hi - 1))] else before
  }

  /** The committed deliveries of a sequence that get past a gate standing at `a`. */
  function Passed(a: int, ds: seq<Delivery>): seq<Delivery> {
    if ds == [] then []
    else
      var before, d := ds[..|ds| - 1], ds[|ds| - 1];
      if d.commitIndex.Some? && Level(a, before) < d.commitIndex.value then Passed(a, before) + [d]
      else Passed(a, before)
  }

  /** Where the gate stands afterwards. */
  function Level(a: int, ds: seq<Delivery>): int {
    if ds == [] then a
    else
      var before, d := ds[..|ds| - 1], ds[|ds| - 1];
      if d.commitIndex.Some? then Max(Level(a, before), d.commitIndex.value) else Level(a, before)
  }

  /** The committed ones among the deliveries. */
  function Committed(ds: seq<Delivery>): seq<Delivery> {
    if ds == [] then []
    else
      var before, d := Committed(ds[..|ds| - 1]), ds[|ds| - 1];
      if d.commitIndex.Some? then before + [d] else before
  }

  /** The committed deliveries handled since the last snapshot. */
  function HandledCommits<S>(trace: seq<Emitted<S>>): seq<Delivery> {
    if trace == [] then []
    else
      var before, x := trace[..|trace| - 1], trace[|trace| - 1];
      match x
      case Restored(_, _) => []
      case Handled(d) => if d.commitIndex.Some? then HandledCommits(before) + [d] else HandledCommits(before)
  }

  ghost predicate AllCommands(kind: Message -> Kind, ds: seq<Delivery>) {
    forall i :: 0 <= i < |ds| ==> kind(ds[i].message).Command?
  }

  /** While not joined, commands are kept in the order they arrive. */
  lemma {:induction false} AcceptAllBuffers<S>(
      c: Connection<S>, kind: Message -> Kind, ds: seq<Delivery>, localPeerId: PeerId)
    requires !c.closed && !c.joined && AllCommands(kind, ds)
    ensures AcceptAll(c, kind, ds, localPeerId) == c.(bufferedMessages := c.bufferedMessages + ds)
  {
    if ds != [] {
      var before, d := ds[..|ds| - 1], ds[|ds| - 1];
      AcceptAllBuffers(c, kind, before, localPeerId);
      assert c.bufferedMessages + before + [d] == c.bufferedMessages + ds by { assert before + [d] == ds; }
    } else {
      assert c.bufferedMessages + ds == c.bufferedMessages;
    }
  }

  /** Draining hands over exactly the committed deliveries that pass the gate. */
  lemma {:induction false} DrainPasses<S>(
      c: Connection<S>, kind: Message -> Kind, ds: seq<Delivery>, localPeerId: PeerId)
    requires !c.closed && c.joined && AllCommands(kind, ds)
    ensures var r := Drain(c, kind, ds, localPeerId);
      && !r.closed && r.joined && r.bufferedMessages == c.bufferedMessages
      && r.appliedCommitIndex == Level(c.appliedCommitIndex, ds)
      && HandledCommits(r.emitted) == HandledCommits(c.emitted) + Passed(c.appliedCommitIndex, ds)
  {
    if ds != [] {
      var before, d := ds[..|ds| - 1], ds[|ds| - 1];
      DrainPasses(c, kind, before, localPeerId);
      var r, q := Drain(c, kind, ds, localPeerId), Drain(c, kind, before, localPeerId);
      assert kind(d.message).Command?;
      if r.emitted != q.emitted {
        assert r.emitted[..|r.emitted| - 1] == q.emitted;
      }
    }
  }

  lemma {:induction false} PassedSplits(a: int, x: seq<Delivery>, y: seq<Delivery>)
    ensures Passed(a, x + y) == Passed(a, x) + Passed(Level(a, x), y)
    ensures Level(a, x + y) == Level(Level(a, x), y)
  {
    if y == [] {
      assert x + y == x;
    } else {
      var before, d := y[..|y| - 1], y[|y| - 1];
      PassedSplits(a, x, before);
      assert (x + y)[..|x + y| - 1] == x + before;
    }
  }

  /** What is not committed does not move the gate. */
  lemma {:induction false} PassedCommitted(a: int, ds: seq<Delivery>)
    ensures Passed(a, ds) == Passed(a, Committed(ds)) && Level(a, ds) == Level(a, Committed(ds))
  {
    if ds != [] {
      var before, d := ds[..|ds| - 1], ds[|ds| - 1];
      PassedCommitted(a, before);
      if d.commitIndex.Some? {
        assert Committed(ds)[..|Committed(ds)| - 1] == Committed(before);
      }
    }
  }

  ghost predicate HasEntry(history: seq<Message>, storageId: StorageId, lo: int, hi: int) {
    exists k :: 0 <= k < |history| && lo <= k < hi && history[k].storageId == storageId
  }

  /** Entries in index order pass from the first one above the gate on; the gate ends at the last. */
  lemma {:induction false} PassedEntries(a: int, history: seq<Message>, storageId: StorageId, lo: nat, hi: nat)
    requires hi <= |history| && -1 <= a
    ensures Passed(a, Entries(history, storageId, lo, hi)) == Entries(history, storageId, Max(lo, a + 1), hi)
    ensures var l := Level(a, Entries(history, storageId, lo, hi));
      && a <= l && (l == a || lo <= l < hi)
      && (forall k :: lo <= k < hi && history[k].storageId == storageId ==> k <= l)
    decreases hi
  {
    if lo < hi {
      PassedEntries(a, history, storageId, lo, hi - 1);
      var es, before := Entries(history, storageId, lo, hi), Entries(history, storageId, lo, hi - 1);
      if history[hi - 1].storageId == storageId {
        assert es[..|es| - 1] == before;
      }
    }
  }

  lemma {:induction false} EntriesSplit(history: seq<Message>, storageId: StorageId, lo: nat, mid: nat, hi: nat)
    requires lo <= mid <= hi <= |history|
    ensures Entries(history, storageId, lo, hi) ==
            Entries(history, storageId, lo, mid) + Entries(history, storageId, mid, hi)
    decreases hi
  {
    if mid < hi {
      EntriesSplit(history, storageId, lo, mid, hi - 1);
    }
  }

  lemma {:induction false} NoEntries(history: seq<Message>, storageId: StorageId, lo: nat, hi: nat)
    requires hi <= |history|
    ensures Entries(history, storageId, lo, hi) == [] <==> !HasEntry(history, storageId, lo, hi)
    decreases hi
  {
    if lo < hi {
      NoEntries(history, storageId, lo, hi - 1);
    }
  }

  // ---------- the catch-up theorem ----------

  /** The committed part of the log above `s` is the tail of the history. */
  ghost predicate HoldsTail(log: LogState, history: seq<Message>, s: int) {
    && log.commitIndex < |history|
    && forall k {:trigger k in log.entries} :: s < k <= log.commitIndex ==>
         0 <= k && k in log.entries && log.entries[k].index == k && log.entries[k].entry == history[k]
  }

  lemma {:induction false} ReplayedTail(
      log: LogState, history: seq<Message>, storageId: StorageId, lo: nat, hi: nat)
    requires hi <= log.commitIndex + 1 && HoldsTail(log, history, lo - 1)
    ensures Deliveries(Collect(log.entries, lo, hi), storageId) == Entries(history, storageId, lo, hi)
    decreases hi
  {
    if lo < hi {
      ReplayedTail(log, history, storageId, lo, hi - 1);
      var es := Collect(log.entries, lo, hi);
      assert hi - 1 in log.entries;
      assert es[..|es| - 1] == Collect(log.entries, lo, hi - 1);
    }
  }

  lemma {:induction false} DeliveriesSplit(x: seq<LogEntry>, y: seq<LogEntry>, storageId: StorageId)
    ensures Deliveries(x + y, storageId) == Deliveries(x, storageId) + Deliveries(y, storageId)
  {
    if y == [] {
      assert x + y == x;
    } else {
      DeliveriesSplit(x, y[..|y| - 1], storageId);
      assert (x + y)[..|x + y| - 1] == x + y[..|y| - 1];
    }
  }

  /** The replay is the tail of the history, preceded by the entry at the applied index if stored. */
  lemma ReplayIsTail(log: LogState, history: seq<Message>, storageId: StorageId, s: int) returns (first: seq<Delivery>)
    requires WellFormed(log) && -1 <= s && HoldsTail(log, history, s) && s < log.commitIndex
    ensures Replay(log, s, storageId) == first + Entries(history, storageId, s + 1, log.commitIndex + 1)
    ensures first == [] || (|first| == 1 && first[0].commitIndex == Some(s))
  {
    hide Collect, Deliveries, Entries, HoldsTail;
    var n := log.commitIndex + 1;
    ReplayCollects(log, storageId, s);
    first := EntryAt(log, storageId, s);
    hide WellFormed, Replay;
    var x, y := Collect(log.entries, s, s + 1), Collect(log.entries, s + 1, n);
    CollectSplit(log.entries, s, s + 1, n);
    DeliveriesSplit(x, y, storageId);
    ReplayedTail(log, history, storageId, s + 1, n);
  }

  lemma ReplayCollects(log: LogState, storageId: StorageId, s: int)
    requires WellFormed(log) && s < log.commitIndex
    ensures Replay(log, s, storageId) == Deliveries(Collect(log.entries, s, log.commitIndex + 1), storageId)
  {
    hide Collect, Deliveries;
  }

  lemma EntryAt(log: LogState, storageId: StorageId, s: int) returns (first: seq<Delivery>)
    requires WellFormed(log)
    ensures first == Deliveries(Collect(log.entries, s, s + 1), storageId)
    ensures first == [] || (|first| == 1 && first[0].commitIndex == Some(s))
  {
    assert s in log.entries ==> log.entries[s].index == s;
    hide WellFormed;
    var x := Collect(log.entries, s, s + 1);
    first := Deliveries(x, storageId);
    assert Collect(log.entries, s, s) == [];
    if s in log.entries {
      assert x == [log.entries[s]] && x[..0] == [];
    } else {
      assert x == [];
    }
  }

  /** The entry at the applied index never gets past the gate. */
  lemma ReplayPasses(log: LogState, history: seq<Message>, storageId: StorageId, s: int, a: int)
    requires WellFormed(log) && -1 <= s <= a && HoldsTail(log, history, s) && s < log.commitIndex
    ensures Passed(a, Replay(log, s, storageId)) == Entries(history, storageId, a + 1, log.commitIndex + 1)
  {
    hide Replay, HoldsTail, WellFormed, Entries;
    var first := ReplayIsTail(log, history, storageId, s);
    assert Passed(a, first) == [] && Level(a, first) == a by {
      assert Passed(a, []) == [] && Level(a, []) == a;
      if first != [] {
        assert first[..0] == [];
      }
    }
    HoldsLength(log, history, s);
    hide Passed, Level;
    PassedSplits(a, first, Entries(history, storageId, s + 1, log.commitIndex + 1));
    PassedEntries(a, history, storageId, s + 1, log.commitIndex + 1);
  }

  lemma HoldsLength(log: LogState, history: seq<Message>, s: int)
    requires HoldsTail(log, history, s)
    ensures log.commitIndex < |history|
  {
  }

  /** The situation in which a storage joins: its state stands at `s` (the index of the snapshot, or its
      own if there is none), everything later is still in the log, and the buffer holds the commits of the
      storage since commit index `b`, with any uncommitted messages between them. */
  ghost predicate Joining<S>(
      c: Connection<S>, log: LogState, history: seq<Message>, kind: Message -> Kind,
      storageId: StorageId, s: int, b: int)
  {
    && !c.closed && WellFormed(log) && -1 <= s < |history| && -1 <= b <= log.commitIndex
    && HoldsTail(log, history, s)
    && AllCommands(kind, c.bufferedMessages)
    && Committed(c.bufferedMessages) == Entries(history, storageId, b + 1, log.commitIndex + 1)
    && LogHoldsCommands(log, kind, storageId)
  }

  /** What the log holds for the storage are commands; its hello and state messages are never submitted. */
  ghost predicate LogHoldsCommands(log: LogState, kind: Message -> Kind, storageId: StorageId) {
    forall k :: k in log.entries && log.entries[k].entry.storageId == storageId ==>
      kind(log.entries[k].entry).Command?
  }

  /** An entry is lost: one lies after the snapshot but before the buffering began, and another one
      was buffered live and moves the gate past it. */
  ghost predicate LosesEntry(history: seq<Message>, storageId: StorageId, s: int, b: int, commitIndex: int) {
    HasEntry(history, storageId, s + 1, b + 1) && HasEntry(history, storageId, b + 1, commitIndex + 1)
  }

  function StandsAt<S>(c: Connection<S>, snapshot: Option<Snapshot<S>>): int {
    if snapshot.Some? then snapshot.value.appliedCommitIndex else c.appliedCommitIndex
  }

  function HandledBefore<S>(c: Connection<S>, snapshot: Option<Snapshot<S>>): seq<Delivery> {
    if snapshot.Some? then [] else HandledCommits(c.emitted)
  }

  lemma {:induction false} CollectedCommands(
      log: LogState, kind: Message -> Kind, storageId: StorageId, lo: int, hi: int)
    requires LogHoldsCommands(log, kind, storageId)
    ensures AllCommands(kind, Deliveries(Collect(log.entries, lo, hi), storageId))
    decreases hi - lo
  {
    if lo < hi {
      CollectedCommands(log, kind, storageId, lo, hi - 1);
      var before, es, k := Collect(log.entries, lo, hi - 1), Collect(log.entries, lo, hi), hi - 1;
      if k !in log.entries {
        assert es == before;
      } else {
        assert es[..|es| - 1] == before && es[|es| - 1] == log.entries[k];
        if log.entries[k].entry.storageId == storageId {
          var d := Delivery(log.entries[k].entry, Some(log.entries[k].index));
          OneMoreCommand(kind, Deliveries(before, storageId), d);
        }
      }
    }
  }

  lemma OneMoreCommand(kind: Message -> Kind, ds: seq<Delivery>, d: Delivery)
    requires AllCommands(kind, ds) && kind(d.message).Command?
    ensures AllCommands(kind, ds + [d])
  {
  }

  lemma ReplayedCommands(log: LogState, kind: Message -> Kind, storageId: StorageId, applied: int)
    requires LogHoldsCommands(log, kind, storageId)
    ensures AllCommands(kind, Replay(log, applied, storageId))
  {
    CollectedCommands(log, kind, storageId, applied, ReplayEnd(log));
  }

  /** What a join hands over in the situation above: what passes from the buffer, then what passes from
      the replay. */
  lemma JoinPasses<S>(
      c: Connection<S>, snapshot: Option<Snapshot<S>>, log: LogState, history: seq<Message>,
      kind: Message -> Kind, storageId: StorageId, localPeerId: PeerId, b: int)
    requires Joining(c, log, history, kind, storageId, StandsAt(c, snapshot), b)
    ensures var s, r := StandsAt(c, snapshot), Joined(c, snapshot, log, kind, storageId, localPeerId);
      && HandledCommits(r.emitted) ==
         HandledBefore(c, snapshot) + Passed(s, c.bufferedMessages + Replay(log, s, storageId))
      && r.joined && r.bufferedMessages == []
      && r.appliedCommitIndex == Level(s, c.bufferedMessages + Replay(log, s, storageId))
  {
    var r := Restore(c.(joined := false), snapshot);
    var s := r.appliedCommitIndex;
    var replay := Replay(log, s, storageId);
    ReplayedCommands(log, kind, storageId, s);
    AcceptAllBuffers(r, kind, replay, localPeerId);
    var b := AcceptAll(r, kind, replay, localPeerId);
    assert b.bufferedMessages == c.bufferedMessages + replay;
    assert AllCommands(kind, b.bufferedMessages);
    DrainPasses(b.(bufferedMessages := [], joined := true), kind, b.bufferedMessages, localPeerId);
    if snapshot.Some? {
      assert HandledCommits(r.emitted) == [];
    }
  }

  /** From the buffer pass the entries above both the snapshot and the start of the buffering; if there
      is any, the gate ends beyond every entry. */
  lemma BufferPasses(live: seq<Delivery>, history: seq<Message>, storageId: StorageId, s: int, b: int, n: nat)
    requires -1 <= s && -1 <= b < n <= |history| && Committed(live) == Entries(history, storageId, b + 1, n)
    ensures Passed(s, live) == Entries(history, storageId, Max(s, b) + 1, n)
    ensures s <= Level(s, live)
    ensures if HasEntry(history, storageId, b + 1, n) then !HasEntry(history, storageId, Level(s, live) + 1, n)
            else Level(s, live) == s && Passed(s, live) == []
  {
    assert Level(s, []) == s && Passed(s, []) == [];
    PassedCommitted(s, live);
    PassedEntries(s, history, storageId, b + 1, n);
    NoEntries(history, storageId, b + 1, n);
    hide Passed, Level, Committed, Entries;
    if HasEntry(history, storageId, b + 1, n) {
      var k :| 0 <= k < |history| && b + 1 <= k < n && history[k].storageId == storageId;
      assert k <= Level(s, live);
    }
  }

  /** The replay adds what the buffer did not move the gate past. */
  lemma WhatPasses<S>(
      c: Connection<S>, log: LogState, history: seq<Message>, kind: Message -> Kind,
      storageId: StorageId, s: int, b: int)
    requires Joining(c, log, history, kind, storageId, s, b)
    ensures var n := log.commitIndex + 1;
      Passed(s, c.bufferedMessages + Replay(log, s, storageId)) ==
      if HasEntry(history, storageId, b + 1, n)
      then Entries(history, storageId, Max(s, b) + 1, n)
      else Entries(history, storageId, s + 1, n)
  {
    var n := log.commitIndex + 1;
    var live, replay := c.bufferedMessages, Replay(log, s, storageId);
    PassedSplits(s, live, replay);
    BufferPasses(live, history, storageId, s, b, n);
    RestPasses(log, history, storageId, s, Level(s, live));
    hide Passed, Level, Entries, Committed, WellFormed, Replay, HasEntry, HoldsTail;
    NoEntries(history, storageId, Level(s, live) + 1, n);
  }

  lemma RestPasses(log: LogState, history: seq<Message>, storageId: StorageId, s: int, a: int)
    requires WellFormed(log) && -1 <= s <= a && -1 <= log.commitIndex && HoldsTail(log, history, s)
    ensures Passed(a, Replay(log, s, storageId)) == Entries(history, storageId, a + 1, log.commitIndex + 1)
  {
    if s < log.commitIndex {
      ReplayPasses(log, history, storageId, s, a);
    }
  }

  /** Catching up hands over every entry of the storage after the snapshot, in log order, exactly when
      no entry is lost to the buffer. */
  lemma CatchUpIsComplete<S>(
      c: Connection<S>, snapshot: Option<Snapshot<S>>, log: LogState, history: seq<Message>,
      kind: Message -> Kind, storageId: StorageId, localPeerId: PeerId, b: int)
    requires Joining(c, log, history, kind, storageId, StandsAt(c, snapshot), b)
    ensures var s, r := StandsAt(c, snapshot), Joined(c, snapshot, log, kind, storageId, localPeerId);
      HandledCommits(r.emitted) == HandledBefore(c, snapshot) + Entries(history, storageId, s + 1, log.commitIndex + 1)
      <==> !LosesEntry(history, storageId, s, b, log.commitIndex)
  {
    hide Replay, Passed, Level, Committed, WellFormed, Joined, HandledCommits, AllCommands, HandledBefore;
    var s, n := StandsAt(c, snapshot), log.commitIndex + 1;
    JoinPasses(c, snapshot, log, history, kind, storageId, localPeerId, b);
    WhatPasses(c, log, history, kind, storageId, s, b);
    if s < b {
      EntriesSplit(history, storageId, s + 1, b + 1, n);
      NoEntries(history, storageId, s + 1, b + 1);
      var before := HandledBefore(c, snapshot);
      var got, all := Entries(history, storageId, b + 1, n), Entries(history, storageId, s + 1, n);
      if before + got == before + all {
        assert |got| == |all|;
      }
    }
  }

  // ---------- messages that do not come through the log ----------

  /** What was handled without a commit index, in order. */
  function Uncommitted<S>(trace: seq<Emitted<S>>): seq<Delivery> {
    if trace == [] then []
    else
      var before, x := Uncommitted(trace[..|trace| - 1]), trace[|trace| - 1];
      if x.Handled? && x.delivery.commitIndex.None? then before + [x.delivery] else before
  }

  /** The deliveries of a run. */
  function Received<S>(steps: seq<Step<S>>): seq<Delivery> {
    if steps == [] then []
    else
      var before, x := Received(steps[..|steps| - 1]), steps[|steps| - 1];
      if x.Receives? then before + [x.delivery] else before
  }

  function Chosen(ds: seq<Delivery>, choice: Delivery -> bool): seq<Delivery> {
    if ds == [] then []
    else
      var before, d := Chosen(ds[..|ds| - 1], choice), ds[|ds| - 1];
      if choice(d) then before + [d] else before
  }

  lemma {:induction false} ChosenJoins(x: seq<Delivery>, y: seq<Delivery>, choice: Delivery -> bool)
    ensures Chosen(x + y, choice) == Chosen(x, choice) + Chosen(y, choice)
  {
    if y == [] {
      assert x + y == x;
    } else {
      ChosenJoins(x, y[..|y| - 1], choice);
      assert (x + y)[..|x + y| - 1] == x + y[..|y| - 1];
    }
  }

  /** Without a commit index, and not the peer's own hello. */
  function Foreign(kind: Message -> Kind, localPeerId: PeerId): Delivery -> bool {
    (d: Delivery) => d.commitIndex.None? && kind(d.message) != Hello(localPeerId)
  }

  function IsCommand(kind: Message -> Kind): Delivery -> bool { (d: Delivery) => kind(d.message).Command? }

  /** A hello or a state message of another peer. */
  function IsNotice(kind: Message -> Kind, localPeerId: PeerId): Delivery -> bool {
    (d: Delivery) => !kind(d.message).Command? && kind(d.message).source != localPeerId
  }

  /** The same deliveries as messages that do not come through the log. */
  function Bare(ds: seq<Delivery>): (r: seq<Delivery>)
    ensures |r| == |ds| && forall i :: 0 <= i < |r| ==> r[i] == Delivery(ds[i].message, None)
  {
    seq(|ds|, i requires 0 <= i < |ds| => Delivery(ds[i].message, None))
  }

  function HandledAll<S>(ds: seq<Delivery>): (r: seq<Emitted<S>>)
    ensures |r| == |ds| && forall i :: 0 <= i < |r| ==> r[i] == Handled(ds[i])
  {
    seq(|ds|, i requires 0 <= i < |ds| => Handled(ds[i]))
  }

  lemma UncommittedGrows<S>(trace: seq<Emitted<S>>, d: Delivery)
    ensures Uncommitted(trace + [Handled(d)]) == Uncommitted(trace) + if d.commitIndex.None? then [d] else []
  {
    var longer := trace + [Handled(d)];
    assert longer[..|longer| - 1] == trace;
  }

  lemma {:induction false} UncommittedBare<S>(ds: seq<Delivery>)
    ensures Uncommitted(HandledAll<S>(Bare(ds))) == Bare(ds)
  {
    if ds != [] {
      var n := |ds| - 1;
      UncommittedBare<S>(ds[..n]);
      assert HandledAll<S>(Bare(ds))[..n] == HandledAll<S>(Bare(ds[..n]));
      assert Bare(ds) == Bare(ds[..n]) + [Bare(ds)[n]];
    }
  }

  /** Before it joins, a connection hands on the hellos and state messages of others at once, keeps the commands
      in order, and does nothing else. */
  lemma {:induction false} BeforeJoining<S>(
      steps: seq<Step<S>>, kind: Message -> Kind, storageId: StorageId, localPeerId: PeerId)
    requires forall i :: 0 <= i < |steps| ==> steps[i].Receives?
    ensures var c := RunOf(steps, kind, storageId, localPeerId);
      && !c.joined && !c.closed && c.appliedCommitIndex == -1
      && c.bufferedMessages == Chosen(Received(steps), IsCommand(kind))
      && c.emitted == HandledAll(Bare(Chosen(Received(steps), IsNotice(kind, localPeerId))))
  {
    if steps != [] {
      var n := |steps| - 1;
      BeforeJoining(steps[..n], kind, storageId, localPeerId);
      assert steps[n].Receives?;
      var d, ds := steps[n].delivery, Received(steps[..n]);
      assert Received(steps) == ds + [d];
      assert Received(steps)[..|ds|] == ds;
    }
  }

  lemma {:induction false} DrainHandsOn<S>(
      c: Connection<S>, kind: Message -> Kind, ds: seq<Delivery>, localPeerId: PeerId)
    requires !c.closed && c.joined && AllCommands(kind, ds)
    ensures var r := Drain(c, kind, ds, localPeerId);
      && !r.closed && r.joined
      && Uncommitted(r.emitted) == Uncommitted(c.emitted) + Chosen(ds, Foreign(kind, localPeerId))
  {
    if ds != [] {
      var before, d := ds[..|ds| - 1], ds[|ds| - 1];
      DrainHandsOn(c, kind, before, localPeerId);
      assert kind(d.message).Command?;
      UncommittedGrows(Drain(c, kind, before, localPeerId).emitted, d);
      hide Uncommitted;
    }
  }

  lemma {:induction false} CommittedAlone(
      log: LogState, storageId: StorageId, lo: int, hi: int, choice: Delivery -> bool)
    requires forall d :: choice(d) ==> d.commitIndex.None?
    ensures Chosen(Deliveries(Collect(log.entries, lo, hi), storageId), choice) == []
    decreases hi - lo
  {
    if lo < hi {
      CommittedAlone(log, storageId, lo, hi - 1, choice);
      var before, es := Collect(log.entries, lo, hi - 1), Collect(log.entries, lo, hi);
      if es != before {
        assert es[..|es| - 1] == before;
        var ds, more := Deliveries(before, storageId), Deliveries(es, storageId);
        if more != ds {
          assert more[..|more| - 1] == ds;
        }
      }
    }
  }

  /** Joining hands on the buffered commands without a commit index, in order; the log adds none of these. */
  lemma JoinHandsOn<S>(
      c: Connection<S>, snapshot: Option<Snapshot<S>>, log: LogState,
      kind: Message -> Kind, storageId: StorageId, localPeerId: PeerId)
    requires !c.closed && AllCommands(kind, c.bufferedMessages) && LogHoldsCommands(log, kind, storageId)
    ensures var r := Joined(c, snapshot, log, kind, storageId, localPeerId);
      && !r.closed && r.joined
      && Uncommitted(r.emitted) == Uncommitted(c.emitted) + Chosen(c.bufferedMessages, Foreign(kind, localPeerId))
  {
    var r := Restore(c.(joined := false), snapshot);
    var replay, choice := Replay(log, r.appliedCommitIndex, storageId), Foreign(kind, localPeerId);
    ReplayedCommands(log, kind, storageId, r.appliedCommitIndex);
    AcceptAllBuffers(r, kind, replay, localPeerId);
    var b := AcceptAll(r, kind, replay, localPeerId);
    assert b.bufferedMessages == c.bufferedMessages + replay;
    DrainHandsOn(b.(bufferedMessages := [], joined := true), kind, b.bufferedMessages, localPeerId);
    ChosenJoins(c.bufferedMessages, replay, choice);
    CommittedAlone(log, storageId, r.appliedCommitIndex, ReplayEnd(log), choice);
    if snapshot.Some? {
      assert r.emitted[..|c.emitted|] == c.emitted;
      assert Uncommitted(r.emitted) == Uncommitted(c.emitted);
    }
  }

  /** After it joined, a connection hands on every message that does not come through the log, in order, and leaves
      out nothing but the peer's own hellos. */
  lemma {:induction false} AfterJoining<S>(
      steps: seq<Step<S>>, i: nat, kind: Message -> Kind, storageId: StorageId, localPeerId: PeerId)
    requires i <= |steps| && forall j :: i <= j < |steps| ==> !steps[j].Closes?
    requires var c := RunOf(steps[..i], kind, storageId, localPeerId); c.joined && !c.closed
    ensures var c, r := RunOf(steps[..i], kind, storageId, localPeerId), RunOf(steps, kind, storageId, localPeerId);
      && r.joined && !r.closed
      && Uncommitted(r.emitted) ==
         Uncommitted(c.emitted) + Chosen(Received(steps[i..]), Foreign(kind, localPeerId))
  {
    hide Uncommitted, Received, Chosen, Take;
    if i == |steps| {
      assert steps[..i] == steps && steps[i..] == [];
      NothingReceived<S>(Foreign(kind, localPeerId));
    } else {
      var n := |steps| - 1;
      assert steps[..n][..i] == steps[..i] && steps[..n][i..] == steps[i..][..n - i] && steps[i..][n - i] == steps[n];
      AfterJoining(steps[..n], i, kind, storageId, localPeerId);
      StepWhenJoined(RunOf(steps[..n], kind, storageId, localPeerId), steps[n], kind, storageId, localPeerId);
      ReceivedNext(steps[i..], Foreign(kind, localPeerId));
    }
  }

  lemma NothingReceived<S>(choice: Delivery -> bool)
    ensures Chosen(Received<S>([]), choice) == []
  {
  }

  lemma ReceivedNext<S>(steps: seq<Step<S>>, choice: Delivery -> bool)
    requires steps != []
    ensures var before, x := Chosen(Received(steps[..|steps| - 1]), choice), steps[|steps| - 1];
      Chosen(Received(steps), choice) ==
      before + if x.Receives? && choice(x.delivery) then [x.delivery] else []
  {
    var ds, x := Received(steps[..|steps| - 1]), steps[|steps| - 1];
    if x.Receives? {
      assert (ds + [x.delivery])[..|ds|] == ds;
    }
  }

  lemma StepWhenJoined<S>(
      c: Connection<S>, x: Step<S>, kind: Message -> Kind, storageId: StorageId, localPeerId: PeerId)
    requires c.joined && !c.closed && !x.Closes?
    ensures var r := Take(c, x, kind, storageId, localPeerId);
      && r.joined && !r.closed
      && Uncommitted(r.emitted) ==
         Uncommitted(c.emitted) +
         if x.Receives? && Foreign(kind, localPeerId)(x.delivery) then [x.delivery] else []
  {
    if x.Receives? {
      UncommittedGrows(c.emitted, x.delivery);
    }
    hide Uncommitted;
  }

  lemma CommandsOnly(ds: seq<Delivery>, kind: Message -> Kind)
    ensures AllCommands(kind, Chosen(ds, IsCommand(kind)))
  {
    if ds != [] {
      CommandsOnly(ds[..|ds| - 1], kind);
    }
  }

  /** A closed connection takes nothing in and hands nothing on. */
  lemma ClosedForGood<S>(
      c: Connection<S>, d: Delivery, kind: Message -> Kind, storageId: StorageId, localPeerId: PeerId)
    requires c.closed
    ensures Take(c, Receives(d), kind, storageId, localPeerId) == c
  {
  }

  /** Over a whole run that receives, joins and receives on: what is handled without a commit index are the notices
      of others that came before the join, then the commands that came before it without a commit index, then all
      that came after it without one, own hellos left out; each once and in order. */
  lemma NothingElseIsLost<S>(
      pre: seq<Step<S>>, snapshot: Option<Snapshot<S>>, log: LogState, post: seq<Step<S>>,
      kind: Message -> Kind, storageId: StorageId, localPeerId: PeerId)
    requires forall i :: 0 <= i < |pre| ==> pre[i].Receives?
    requires forall i :: 0 <= i < |post| ==> !post[i].Closes?
    requires LogHoldsCommands(log, kind, storageId)
    ensures Uncommitted(RunOf(pre + [Joins(snapshot, log)] + post, kind, storageId, localPeerId).emitted) ==
            Bare(Chosen(Received(pre), IsNotice(kind, localPeerId)))
            + Chosen(Chosen(Received(pre), IsCommand(kind)), Foreign(kind, localPeerId))
            + Chosen(Received(post), Foreign(kind, localPeerId))
  {
    hide Joined, Uncommitted, Chosen, Received, Bare, HandledAll;
    var mid := pre + [Joins(snapshot, log)];
    var all := mid + post;
    assert mid[..|pre|] == pre && all[..|mid|] == mid && all[|mid|..] == post;
    BeforeJoining(pre, kind, storageId, localPeerId);
    UncommittedBare<S>(Chosen(Received(pre), IsNotice(kind, localPeerId)));
    CommandsOnly(Received(pre), kind);
    var c := RunOf(pre, kind, storageId, localPeerId);
    JoinHandsOn(c, snapshot, log, kind, storageId, localPeerId);
    assert RunOf(mid, kind, storageId, localPeerId) == Joined(c, snapshot, log, kind, storageId, localPeerId);
    AfterJoining(all, |mid|, kind, storageId, localPeerId);
  }

  // ---------- the state ----------

  function Fold<S>(apply: (S, Message) -> S, state: S, ds: seq<Delivery>): S {
    if ds == [] then state
    else apply(Fold(apply, state, ds[..|ds| - 1]), ds[|ds| - 1].message)
  }

  lemma {:induction false} FoldSplits<S>(apply: (S, Message) -> S, state: S, x: seq<Delivery>, y: seq<Delivery>)
    ensures Fold(apply, state, x + y) == Fold(apply, Fold(apply, state, x), y)
  {
    if y == [] {
      assert x + y == x;
    } else {
      FoldSplits(apply, state, x, y[..|y| - 1]);
      assert (x + y)[..|x + y| - 1] == x + y[..|y| - 1];
    }
  }

  /** The state of the storage: its initial state or the last snapshot, then every commit handled since. */
  function StateOf<S>(apply: (S, Message) -> S, initial: S, trace: seq<Emitted<S>>): S {
    if trace == [] then initial
    else
      var before, x := trace[..|trace| - 1], trace[|trace| - 1];
      match x
      case Restored(_, snapshot) => snapshot
      case Handled(d) =>
        var state := StateOf(apply, initial, before);
        if d.commitIndex.Some? then apply(state, d.message) else state
  }

  function BaseState<S>(initial: S, trace: seq<Emitted<S>>): S {
    if trace == [] then initial
    else
      match trace[|trace| - 1]
      case Restored(_, snapshot) => snapshot
      case Handled(_) => BaseState(initial, trace[..|trace| - 1])
  }

  lemma {:induction false} StateIsFold<S>(apply: (S, Message) -> S, initial: S, trace: seq<Emitted<S>>)
    ensures StateOf(apply, initial, trace) == Fold(apply, BaseState(initial, trace), HandledCommits(trace))
  {
    if trace != [] {
      var before, x := trace[..|trace| - 1], trace[|trace| - 1];
      StateIsFold(apply, initial, before);
      if x.Handled? && x.delivery.commitIndex.Some? {
        assert HandledCommits(trace)[..|HandledCommits(trace)| - 1] == HandledCommits(before);
      }
    }
  }

  lemma {:induction false} BaseStays<S>(
      c: Connection<S>, kind: Message -> Kind, ds: seq<Delivery>, localPeerId: PeerId, initial: S)
    ensures BaseState(initial, Drain(c, kind, ds, localPeerId).emitted) == BaseState(initial, c.emitted)
  {
    if ds != [] {
      var before := Drain(c, kind, ds[..|ds| - 1], localPeerId);
      BaseStays(c, kind, ds[..|ds| - 1], localPeerId, initial);
      var r := Drain(c, kind, ds, localPeerId);
      if r.emitted != before.emitted {
        assert r.emitted[..|r.emitted| - 1] == before.emitted;
      }
    }
  }

  /** The state of a storage that handled every entry below index `n` of the history from the start. */
  function Replayed<S>(apply: (S, Message) -> S, initial: S, history: seq<Message>, storageId: StorageId, n: nat): S
    requires n <= |history|
  {
    Fold(apply, initial, Entries(history, storageId, 0, n))
  }

  /** If the snapshot is the state at its index and no entry is lost, the joined storage is in the state of
      one that replayed the whole history: up to the commit index, or to the snapshot if that is ahead. */
  lemma JoinedStateIsReplay<S>(
      c: Connection<S>, snapshot: Snapshot<S>, log: LogState, history: seq<Message>, kind: Message -> Kind,
      storageId: StorageId, localPeerId: PeerId, b: int, apply: (S, Message) -> S, initial: S)
    requires Joining(c, log, history, kind, storageId, snapshot.appliedCommitIndex, b)
    requires snapshot.state == Replayed(apply, initial, history, storageId, snapshot.appliedCommitIndex + 1)
    requires !LosesEntry(history, storageId, snapshot.appliedCommitIndex, b, log.commitIndex)
    ensures var s, r := snapshot.appliedCommitIndex, Joined(c, Some(snapshot), log, kind, storageId, localPeerId);
      StateOf(apply, initial, r.emitted) == Replayed(apply, initial, history, storageId, Max(s, log.commitIndex) + 1)
  {
    var s, n := snapshot.appliedCommitIndex, log.commitIndex + 1;
    hide Joined, WellFormed, HandledCommits, StateOf, BaseState, AllCommands;
    var r := Joined(c, Some(snapshot), log, kind, storageId, localPeerId);
    CatchUpIsComplete(c, Some(snapshot), log, history, kind, storageId, localPeerId, b);
    var tail := Entries(history, storageId, s + 1, n);
    assert HandledCommits(r.emitted) == tail by { assert [] + tail == tail; }
    StateIsFold(apply, initial, r.emitted);
    JoinedBase(c, snapshot, log, kind, storageId, localPeerId, initial);
    if s < n {
      FoldSplits(apply, initial, Entries(history, storageId, 0, s + 1), tail);
      EntriesSplit(history, storageId, 0, s + 1, n);
    }
  }

  lemma JoinedBase<S>(
      c: Connection<S>, snapshot: Snapshot<S>, log: LogState, kind: Message -> Kind,
      storageId: StorageId, localPeerId: PeerId, initial: S)
    requires !c.closed && AllCommands(kind, c.bufferedMessages) && LogHoldsCommands(log, kind, storageId)
    ensures BaseState(initial, Joined(c, Some(snapshot), log, kind, storageId, localPeerId).emitted) == snapshot.state
  {
    var r := Restore(c.(joined := false), Some(snapshot));
    var replay := Replay(log, r.appliedCommitIndex, storageId);
    ReplayedCommands(log, kind, storageId, r.appliedCommitIndex);
    AcceptAllBuffers(r, kind, replay, localPeerId);
    var b := AcceptAll(r, kind, replay, localPeerId);
    assert BaseState(initial, r.emitted) == snapshot.state;
    BaseStays(b.(bufferedMessages := [], joined := true), kind, b.bufferedMessages, localPeerId, initial);
  }

  /** A run that loses a commit: a storage is opened on a peer whose log already holds a commit `x` for it,
      `y` is committed while it joins, and no other peer answers with a snapshot. */
  lemma LateJoinerMissesCommit<S>(x: Message, y: Message, kind: Message -> Kind, localPeerId: PeerId)
    requires x.storageId == y.storageId && kind(x).Command? && kind(y).Command?
    ensures var log := CommitUntil(Submit(Submit(EMPTY_LOG, 1, x, 0), 1, y, 0), 1, 0, 0);
      var steps: seq<Step<S>> := [Receives(Delivery(y, Some(1))), Joins(None, log)];
      HandledCommits(RunOf(steps, kind, x.storageId, localPeerId).emitted) == [Delivery(y, Some(1))]
  {
    var log := CommitUntil(Submit(Submit(EMPTY_LOG, 1, x, 0), 1, y, 0), 1, 0, 0);
    LateLog(x, y);
    var c := NewConnection<S>().(bufferedMessages := [Delivery(y, Some(1))]);
    JoinMisses(c, x, y, log, kind, localPeerId);
    hide CommitUntil, Submit, Joined, HandledCommits;
    var steps: seq<Step<S>> := [Receives(Delivery(y, Some(1))), Joins(None, log)];
    assert steps[..1] == [Receives(Delivery(y, Some(1)))] && steps[..1][..0] == [];
    assert RunOf(steps[..1][..0], kind, x.storageId, localPeerId) == NewConnection<S>();
    assert RunOf(steps[..1], kind, x.storageId, localPeerId) == c;
  }

  lemma JoinMisses<S>(
      c: Connection<S>, x: Message, y: Message, log: LogState, kind: Message -> Kind, localPeerId: PeerId)
    requires x.storageId == y.storageId && kind(x).Command? && kind(y).Command?
    requires c == NewConnection<S>().(bufferedMessages := [Delivery(y, Some(1))])
    requires WellFormed(log) && log.commitIndex == 1 && HoldsTail(log, [x, y], -1)
    requires LogHoldsCommands(log, kind, x.storageId)
    ensures HandledCommits(Joined(c, None, log, kind, x.storageId, localPeerId).emitted) == [Delivery(y, Some(1))]
  {
    var history, storageId := [x, y], x.storageId;
    assert Entries(history, storageId, 1, 1) == [];
    assert Entries(history, storageId, 1, 2) == [Delivery(y, Some(1))];
    assert Committed(c.bufferedMessages[..0]) == [];
    assert Committed(c.bufferedMessages) == [Delivery(y, Some(1))];
    assert history[1].storageId == storageId;
    assert HasEntry(history, storageId, 1, 2);
    assert HandledCommits(c.emitted) == [];
    hide Joined, Replay, Passed, Committed, Entries, HandledCommits, WellFormed, HoldsTail;
    JoinPasses(c, None, log, history, kind, storageId, localPeerId, 0);
    WhatPasses(c, log, history, kind, storageId, -1, 0);
  }

  lemma LateLog(x: Message, y: Message)
    ensures var log := CommitUntil(Submit(Submit(EMPTY_LOG, 1, x, 0), 1, y, 0), 1, 0, 0);
      WellFormed(log) && log.commitIndex == 1 && HoldsTail(log, [x, y], -1)
      && forall k :: k in log.entries ==> log.entries[k].entry == x || log.entries[k].entry == y
  {
  }
}
